# Logistics calculator core, modelled in Dafny

This project models the calculation core of the logistics price calculator:

- the pricing models and `calculatePrice`, which prices a parcel by weight under one of four carrier models (`price_calculator.dfy`, `pricing.dfy`);
- the province and city name normaliser (`name_normalizer.dfy`);
- the location matcher, which finds the delivery location of an address (`location_matcher.dfy`);
- the free-text address parser (`address_parser.dfy`);
- the province/city catalogue and its search (`province_city_data.dfy`);
- the mapping of Airtable price and location records (`load_prices.dfy`, `load_locations.dfy`);
- the conversion of Airtable records into per-carrier rate tables (`airtable_client.dfy`);
- the profit calculators and their saved history (`profit_calculator.dfy`).

The record shapes of `lib/types.ts` are datatypes in `types.dfy`. JavaScript's own operations that the code relies on have small models of their own:

- strings: trim, `includes`/`indexOf`, `split`, lower-casing (`js_string.dfy`);
- arrays: `find`, `filter`, `slice` (`js_array.dfy`);
- numbers: truthiness, `Math.ceil`, `Math.round` (`js_number.dfy`);
- the regular expressions of the address parser (`js_regex.dfy`).

Where the code is a loop that updates variables, the model is a `method` with that loop. The method is proved equal to a specification function, and the properties are proved about that function. Where the code updates an object's state, the model is a class:

- `CalculationHistory` holds the saved calculations;
- `LogisticsData` holds the converted rate tables.

Numbers are mathematical reals. `null`/`undefined` are `Option.None`, and a thrown error is `Result.Err`.

## Model

| member | source | states |
|---|---|---|
| Pricing.ParseModelKind | types/pricing.ts:45 | a model type is recognised exactly when it is one of the four variant tags, and the recognised kind carries that tag |
| Pricing.ModelKindRoundTrip | types/pricing.ts:12-36 | each of the four pricing models is recognised from its own tag (tag and kind round-trip) |
| PriceCalculator.ApplyRounding | lib/price-calculator.ts:5-16 | absent or `none` rounding leaves the price unchanged; every rounding mode gives a price no lower than the input |
| PriceCalculator.ApplyRoundingUpToFifth | lib/price-calculator.ts:9-10 | `up_to_0.2` gives a multiple of 0.2, not below the price and less than 0.2 above it |
| PriceCalculator.FifthMultipleAbove | lib/price-calculator.ts:10 | every multiple of 0.2 not below the price is at least the rounded price, so that price is the least such multiple |
| PriceCalculator.ApplyRoundingUpToOne | lib/price-calculator.ts:11-12 | `up_to_1` gives the least whole number not below the price |
| PriceCalculator.ApplyRoundingIdempotent | lib/price-calculator.ts:5-16 | rounding an already rounded price changes nothing, for every mode |
| PriceCalculator.ModelOf | lib/price-calculator.ts:23-39 | the model built from a rule has the variant its tag names, and a complex_tiered model never carries a rounding mode |
| PriceCalculator.BuildModel | lib/price-calculator.ts:20-41 | building fails exactly when ModelType is missing or not one of the four tags; a built complex_tiered model is never rounded |
| PriceCalculator.RulePrice | lib/price-calculator.ts:18-20 | weight ≤ 0 costs 0 before the rule is looked at; for positive weight the result is an error exactly when ModelType is missing or unknown, and a missing one gives the missing-type error |
| PriceCalculator.CalculatePrice | lib/price-calculator.ts:18-132 | the method, with its tier scans as loops, returns the specification's price or error |
| PriceCalculator.EvaluateModel | lib/price-calculator.ts:41-131 | the switch on the model type returns the specification's price for every model |
| PriceCalculator.ModelPrice | lib/price-calculator.ts:41-131 | the specification of the switch; the branch lemmas below state each model's price |
| PriceCalculator.FirstAdditionalPrice | lib/price-calculator.ts:42-58 | the first_additional branch returns the specification's price |
| PriceCalculator.TieredMinimumChargePrice | lib/price-calculator.ts:60-82 | the tiered_minimum_charge branch, with its first-covering-tier loop, returns the specification's price |
| PriceCalculator.ComplexTieredPrice | lib/price-calculator.ts:84-102 | the complex_tiered branch, with its tier loop, returns the specification's price |
| PriceCalculator.FirstPlusTieredFlatRatePrice | lib/price-calculator.ts:104-127 | the first_plus_tiered_flat_rate branch, with its tier loop, returns the specification's price |
| PriceCalculator.RulePriceOfKind | lib/price-calculator.ts:18-41 | a positive weight and a known model type give exactly that model's price |
| PriceCalculator.FirstWeightKgDefaultsToOne | lib/price-calculator.ts:30 | an absent or zero FirstWeightKg prices exactly as FirstWeightKg = 1 |
| PriceCalculator.FirstAdditionalGuard | lib/price-calculator.ts:43 | first_additional with an absent or zero first price or per-kg price gives -1 |
| PriceCalculator.FirstAdditionalException | lib/price-calculator.ts:46-51 | with a truthy threshold reached and formula per_kg_only, the price is weight × per-kg price, whatever the first price |
| PriceCalculator.FirstAdditionalStandard | lib/price-calculator.ts:54-58 | otherwise the first price up to the first weight, then first price + ceil(weight − first weight) × per-kg price, strictly above the first price |
| PriceCalculator.FirstAdditionalMonotone | lib/price-calculator.ts:54-58 | without the exception, a heavier parcel never costs less when the per-kg price is positive |
| PriceCalculator.TieredMinimumChargeGuard | lib/price-calculator.ts:61 | absent tiers or an absent or zero minimum charge give -1 |
| PriceCalculator.TieredMinimumChargeFirstCovering | lib/price-calculator.ts:64-82 | the first tier in array order that is unbounded or covers the weight is used; the price is max(tier charge, minimum) ≥ minimum, and equals the minimum for a tier with neither flat nor per-kg price |
| PriceCalculator.TieredMinimumChargeNoCovering | lib/price-calculator.ts:73 | no covering tier gives -1 |
| PriceCalculator.ComplexTieredFirstRated | lib/price-calculator.ts:84-100 | the first covering tier with a truthy flat or per-kg price is used: its flat price, else base fee (only when truthy) + weight × per-kg; the price is not rounded |
| PriceCalculator.ComplexTieredNoRatedTier | lib/price-calculator.ts:85-102 | absent tiers, or no covering tier with a rate, give -1 |
| PriceCalculator.ComplexTieredRounded | lib/price-calculator.ts:91-97 | a complex_tiered model that does carry a rounding mode returns the selected tier's charge rounded up |
| PriceCalculator.FirstPlusGuard | lib/price-calculator.ts:105 | an absent or zero first price, or absent tiers, give -1 |
| PriceCalculator.FirstPlusWithinFirstWeight | lib/price-calculator.ts:112-114 | up to the first weight the price is the first price |
| PriceCalculator.FirstPlusFirstFlatTier | lib/price-calculator.ts:118-124 | beyond the first weight, the flat price of the first tier that covers the total weight and has one |
| PriceCalculator.FirstPlusNoFlatTier | lib/price-calculator.ts:118-127 | beyond the first weight with no covering flat tier, -1 |
| PriceCalculator.PriceDifference | lib/price-calculator.ts:144-147 | 0 when price2 is 0; otherwise the percentage r with price2 + price2·r/100 = price1, positive exactly when price1 > price2 (for positive price2) |
| NameNormalizer.AliasEntries | lib/name-normalizer.ts:7-81 | the table has two entries per province, in declaration order |
| NameNormalizer.AliasEntriesAt | lib/name-normalizer.ts:7-81 | entry 2i maps province i's short name to itself and entry 2i+1 its full name to the short name |
| NameNormalizer.AliasEntriesFrom | lib/name-normalizer.ts:7-81 | every entry of the table is one of those two entries of some province |
| NameNormalizer.AliasesWellFormed | lib/name-normalizer.ts:7-81 | every short name is trimmed and ends without 省/市/区; every full name ends with one |
| NameNormalizer.EntriesMapToShortNames | lib/name-normalizer.ts:7-81 | every entry of a well-formed table maps to a short name, and a short name maps to itself |
| NameNormalizer.LookupIn | lib/name-normalizer.ts:99-101 | the lookup finds the first entry with exactly that key, and nothing when no entry has it |
| NameNormalizer.NormalFormIn | lib/name-normalizer.ts:93-112 | empty stays empty; a key maps to its value; else the first entry in order whose key contains or is contained in the trimmed text; else the trimmed text |
| NameNormalizer.NormalizeProvince | lib/name-normalizer.ts:93-112 | the method with the fallback loop returns the specification's normal form |
| NameNormalizer.NormalizeProvinceIn | lib/name-normalizer.ts:94-111 | the same over any table given as a parameter |
| NameNormalizer.ProvinceIgnoresSurroundingSpace | lib/name-normalizer.ts:96 | surrounding white space never changes the result for a non-blank input |
| NameNormalizer.ShortNameFixed | lib/name-normalizer.ts:99-101 | a short name of a well-formed table normalises to itself |
| NameNormalizer.FullNameNormalises | lib/name-normalizer.ts:99-101 | a full name normalises to its short name when no earlier province shares it |
| NameNormalizer.NormalFormIdempotent | lib/name-normalizer.ts:93-112 | normalising a normalised province name changes nothing |
| NameNormalizer.BlankIsFirstShortName | lib/name-normalizer.ts:104-108 | white space alone trims to empty text, which every key contains, so the first entry's short name is returned |
| NameNormalizer.UnknownUnchanged | lib/name-normalizer.ts:111 | text no key relates to comes back trimmed and otherwise unchanged |
| NameNormalizer.ProvinceNormalFormProperties | lib/name-normalizer.ts:93-112 | with the source's table: idempotent, and a blank input gives '北京' |
| NameNormalizer.ProvinceExactKey | lib/name-normalizer.ts:32 | '浙江省' normalises to '浙江' |
| NameNormalizer.StripFirstSuffix | lib/name-normalizer.ts:125-130 | the result is a prefix of the text: the text without the first suffix in list order that it ends with |
| NameNormalizer.CityNormalForm | lib/name-normalizer.ts:119-133 | empty stays empty; otherwise a prefix of the trimmed text |
| NameNormalizer.NormalizeCity | lib/name-normalizer.ts:119-133 | the method returns the specification's city form |
| NameNormalizer.StripSuffixLoop | lib/name-normalizer.ts:125-130 | the loop with `break` stops at the first suffix the text ends with |
| NameNormalizer.ShortSuffix | lib/name-normalizer.ts:85 | the first six suffixes are single characters |
| NameNormalizer.LongSuffixShadowed | lib/name-normalizer.ts:85 | a text ending with a longer suffix also ends with a one-character suffix listed before it |
| NameNormalizer.CityLosesAtMostOneChar | lib/name-normalizer.ts:119-133 | a city name loses at most its last character, and loses it exactly when it is one of 市县区旗盟州 |
| NameNormalizer.CityLosesSuffixChar | lib/name-normalizer.ts:125-130 | a trimmed name ending with a one-character suffix loses exactly that character |
| NameNormalizer.CityKeepsOtherName | lib/name-normalizer.ts:119-133 | a name not ending with one of those characters comes back trimmed and otherwise unchanged |
| NameNormalizer.TrimmedCityLosesSuffixChar | lib/name-normalizer.ts:125-130 | the same for a name already trimmed |
| NameNormalizer.NameLosesSuffixChar | lib/name-normalizer.ts:125-130 | ideographs followed by a one-character suffix lose only that suffix |
| NameNormalizer.CitySuffixShadowing | lib/name-normalizer.ts:85 | '阿坝藏族羌族自治州' keeps '自治' and '阿里地区' keeps '地': the longer suffixes never apply |
| NameNormalizer.CityNormalFormNotIdempotent | lib/name-normalizer.ts:119-133 | normalising twice can strip again: '苏州市' gives '苏州', then '苏' |
| NameNormalizer.NormalizeProvinceCity | lib/name-normalizer.ts:141-146 | both names are normalised independently |
| NameNormalizer.SameNameIsEquivalence | lib/name-normalizer.ts:154-166 | isSameProvince and isSameCity are reflexive, symmetric and transitive |
| NameNormalizer.IsSameProvince | lib/name-normalizer.ts:154-156 | equal after province normalisation; `SameNameIsEquivalence` proves it an equivalence |
| NameNormalizer.IsSameCity | lib/name-normalizer.ts:164-166 | equal after city normalisation; `SameNameIsEquivalence` proves it an equivalence |
| NameNormalizer.FuzzyMatchCity | lib/name-normalizer.ts:174-189 | the normalised names are equal or one contains the other; `FuzzyMatchCityProperties` proves it reflexive, symmetric and implied by isSameCity |
| NameNormalizer.SpellingsAgree | lib/name-normalizer.ts:154-156 | the two spellings of a province normalise alike |
| NameNormalizer.SameProvinceAcrossSpellings | lib/name-normalizer.ts:154-156 | '浙江省' and '浙江' are the same province |
| NameNormalizer.FuzzyMatchCityProperties | lib/name-normalizer.ts:174-189 | fuzzyMatchCity is reflexive and symmetric, and holds whenever isSameCity does |
| NameNormalizer.SuzhouIsOnlyAFuzzyMatch | lib/name-normalizer.ts:164-189 | '苏州' and '苏州市' are not the same city, but they are a fuzzy match |
| LocationMatcher.CityLevelIncludes | lib/location-matcher.ts:120-121 | a name is city level exactly when it contains 市, 县 or 区 |
| LocationMatcher.ExtractProvinceFromCity | lib/location-matcher.ts:240-389 | the province listed for the city, never an empty text |
| LocationMatcher.ProvinceIn | lib/location-matcher.ts:388 | the lookup succeeds exactly when the name is a key with a non-empty province, and returns that province |
| LocationMatcher.MunicipalityIsItsOwnProvince | lib/location-matcher.ts:377 | 北京市 is listed as its own province |
| LocationMatcher.SharedChars | lib/location-matcher.ts:68-73 | the count of input characters, with repetition, that occur in the name, at most the input length |
| LocationMatcher.MatchLocation | lib/location-matcher.ts:10-80 | a match is always one of the locations, and a blank input matches nothing |
| LocationMatcher.CountSharedChars | lib/location-matcher.ts:68-73 | the counting loop computes the shared-character count |
| LocationMatcher.IsPartialMatch | lib/location-matcher.ts:51-77 | the partial-match callback, with its loop, returns the specification's test |
| LocationMatcher.RatioAboveSevenTenths | lib/location-matcher.ts:76 | a ratio above 0.7 is exactly ten times the numerator above seven times the denominator |
| LocationMatcher.CharOverlapThreshold | lib/location-matcher.ts:65-76 | the 70% test holds exactly when ten times the shared characters exceed seven times the input length, for inputs of three or more characters |
| LocationMatcher.MatchLocationExactFirst | lib/location-matcher.ts:16-19 | an exact match wins, and it is the first exact match in list order |
| LocationMatcher.MatchLocationContainsFirst | lib/location-matcher.ts:22-26 | without an exact match, the first location contained in the input or containing it wins |
| LocationMatcher.NoContainmentNoExact | lib/location-matcher.ts:16-26 | a location in no containment relation with the input is not an exact match either |
| LocationMatcher.MatchLocationProvinceShortFirst | lib/location-matcher.ts:29-37 | then, when the input's province short form is longer than one character, the first location whose short form equals or contains it wins |
| LocationMatcher.MatchLocationCityShortFirst | lib/location-matcher.ts:40-48 | then the same with the city short forms |
| LocationMatcher.MatchLocationNone | lib/location-matcher.ts:10-80 | the result is null exactly when the input is blank, or both short-form stages and the partial test find nothing |
| LocationMatcher.NothingMatched | lib/location-matcher.ts:29-79 | a null result for a non-blank input means both short-form stages failed and no location passes the partial test |
| LocationMatcher.NoPartialNoExact | lib/location-matcher.ts:51-58 | both earlier stages' tests imply the partial test, so with no partial match they find nothing |
| LocationMatcher.ShortInputNeedsContainment | lib/location-matcher.ts:64-65 | an input under three characters passes the partial test only by containment |
| LocationMatcher.SortByRank | lib/location-matcher.ts:117-128 | the sort is a permutation of its input |
| LocationMatcher.InsertRankedAt | lib/location-matcher.ts:117-128 | inserting before the first element the new one outranks keeps the list ranked |
| LocationMatcher.InsertRanked | lib/location-matcher.ts:117-128 | insertion keeps the list ranked and adds exactly the new element |
| LocationMatcher.SortByRankRanked | lib/location-matcher.ts:117-128 | the sorted candidates are a permutation, ranked city level first and then longer names first |
| LocationMatcher.OutranksChain | lib/location-matcher.ts:120-127 | the comparator is a total preorder |
| LocationMatcher.TailOutranked | lib/location-matcher.ts:117-128 | in a ranked list whatever outranks one element outranks every later one |
| LocationMatcher.InsertStableAt | lib/location-matcher.ts:117-128 | insertion keeps each rank's order and puts the new element last in its rank |
| LocationMatcher.InsertStable | lib/location-matcher.ts:117-128 | per rank, insertion is the same as appending |
| LocationMatcher.SortByRankStable | lib/location-matcher.ts:117-128 | the sort is stable: candidates of equal rank keep their list order |
| LocationMatcher.ParentProvinceAppended | lib/location-matcher.ts:133-143 | the province is appended at most once, at the end, and only when the best match is city level, the province is listed, found among the locations and not yet a candidate |
| LocationMatcher.WordTrimmed | lib/location-matcher.ts:154-162 | a token of the split has no white space at its ends, so trimming leaves it whole and non-blank |
| LocationMatcher.FirstTokenMatchFirst | lib/location-matcher.ts:161-195 | a token match is a location passing the level's test for a token, no location passes it for any earlier token; no match means none passes for any token |
| LocationMatcher.TokenHitSound | lib/location-matcher.ts:162-180 | one step of the token loop: a hit passes the test, a miss means no location passes it for that token |
| LocationMatcher.ParentOf | lib/location-matcher.ts:186-191 | the province location found is the first location named as the table's province of the city |
| LocationMatcher.ParentOfIn | lib/location-matcher.ts:186-191 | the province location is one of the locations |
| LocationMatcher.WithParentProvinceIn | lib/location-matcher.ts:133-143 | stage 2 only adds a location of the list |
| LocationMatcher.RankedMatchShape | lib/location-matcher.ts:130-151 | the stage-2 result is well shaped: the best match first, the name reported as both province and city, candidates from the list |
| LocationMatcher.TokenFallbackShape | lib/location-matcher.ts:153-232 | the stage-3 result is well shaped: a match exactly when there are candidates, the match first, its name as province and city |
| LocationMatcher.AddressMatchShape | lib/location-matcher.ts:88-233 | every stage's result is well shaped |
| LocationMatcher.TokenFallback | lib/location-matcher.ts:153-232 | the specification of stage 3; `TokenFallbackShape`, `TokenFallbackMatched` and `TokenFallbackNone` characterise it |
| LocationMatcher.AddressMatchOf | lib/location-matcher.ts:88-233 | the specification of `parseAddressWithLocations`; `AddressMatchExactFirst`, `AddressMatchRanked` and `AddressMatchNone` characterise it |
| LocationMatcher.SortByRankIn | lib/location-matcher.ts:117-128 | the sorted list holds only elements of the unsorted one |
| LocationMatcher.AddressMatchExactFirst | lib/location-matcher.ts:101-111 | a location whose lower-cased name is the whole trimmed address wins alone, the first such one |
| LocationMatcher.RankedMatchOrder | lib/location-matcher.ts:114-151 | the candidates start with the containment matches, ranked, as a stable permutation, followed by at most the parent province; the best is the match |
| LocationMatcher.AddressMatchRanked | lib/location-matcher.ts:113-151 | stage 2 decides exactly when nothing matches whole and some name and the address overlap |
| LocationMatcher.FirstTokenMatchNone | lib/location-matcher.ts:161-224 | no token match at one level exactly when no location passes that level's test for any token |
| LocationMatcher.TokenFallbackMatched | lib/location-matcher.ts:198-225 | stage 3 matches at city level first and at province level only without a city-level match |
| LocationMatcher.TokenFallbackNone | lib/location-matcher.ts:153-232 | stage 3 matches nothing exactly when no location passes either token test for any token |
| LocationMatcher.NoOverlapFallsBack | lib/location-matcher.ts:101-153 | with no overlap, stages 1 and 2 find nothing and stage 3 decides |
| LocationMatcher.OverlapMatches | lib/location-matcher.ts:101-151 | with an overlap, stage 1 or stage 2 matches |
| LocationMatcher.AddressMatchNone | lib/location-matcher.ts:88-233 | nothing is matched exactly when the address is blank, or no name and the address overlap and no location passes a token test for any token |
| LocationMatcher.HanIsNotSeparator | lib/location-matcher.ts:154 | an ideograph is not an address separator |
| LocationMatcher.TwoNameAddressTrimmed | lib/location-matcher.ts:98 | two ideograph names around a space are left alone by trimming |
| LocationMatcher.TwoNameAddressWords | lib/location-matcher.ts:154 | such an address splits into its two names |
| LocationMatcher.CityTokenMatches | lib/location-matcher.ts:164-178 | a token that a city-level name starts with matches that location first |
| LocationMatcher.TwoNamesFallBack | lib/location-matcher.ts:113-153 | such an address overlaps no location with a character it lacks, so stage 3 decides |
| LocationMatcher.OwnProvinceRepeated | lib/location-matcher.ts:180-192 | a city-level location that is its own province, matched by a token, is listed twice |
| LocationMatcher.FirstTokenOfTwo | lib/location-matcher.ts:161-195 | the first of two tokens matches a city-level location its name starts with |
| LocationMatcher.TokenFallbackCityCandidates | lib/location-matcher.ts:180-192 | a city-level token match is followed by its province's location |
| LocationMatcher.MunicipalityParent | lib/location-matcher.ts:377 | a location named 北京市 is its own province's location |
| LocationMatcher.BeijingAddressRepeats | lib/location-matcher.ts:153-232 | the address 北京 朝阳 against one location 北京市 lists that location twice |
| LocationMatcher.TokenFallbackRepeatsMunicipality | lib/location-matcher.ts:186-191 | with the source's table the token naming 北京市 is followed by the same location again |
| LocationMatcher.ParentOfChecked | lib/location-matcher.ts:186-191 | corrected: the province location is skipped when it has the matched location's id |
| LocationMatcher.TokenFallbackCheckedDistinct | lib/location-matcher.ts:153-232 | the corrected stage 3 matches what the original matches, reports the same names, and no two candidates share an id |
| LocationMatcher.DistinctIdsAfter | lib/location-matcher.ts:180-192 | a location followed by at most one location of another id has distinct ids |
| LocationMatcher.CheckedFallsBack | lib/location-matcher.ts:101-153 | without overlap the corrected parse also falls back to its token stage |
| LocationMatcher.OwnProvinceOnceChecked | lib/location-matcher.ts:180-192 | where the original lists a self-province location twice, the corrected parse lists it once |
| LocationMatcher.CheckedCityCandidates | lib/location-matcher.ts:180-192 | corrected: a city-level token match is followed by its province's location only when that is another location |
| LocationMatcher.BeijingAddressOnceChecked | lib/location-matcher.ts:153-232 | on the 北京 朝阳 example the corrected parse lists 北京市 once |
| LocationMatcher.CheckedListsMunicipalityOnce | lib/location-matcher.ts:186-191 | with the source's table the corrected parse lists 北京市 once |
| LocationMatcher.ParseAddressWithLocations | lib/location-matcher.ts:88-233 | the method, building the candidate list and running the token loops, returns the specification's result |
| LocationMatcher.AddParentProvince | lib/location-matcher.ts:133-143 | the province of a city-level best match is pushed unless already a candidate |
| LocationMatcher.TokenFallbackLoops | lib/location-matcher.ts:153-232 | the city-level loop, then the province-level one, give the specification's stage-3 result |
| LocationMatcher.CityTokenLoop | lib/location-matcher.ts:161-195 | the loop finds the first token matched at city level and pushes its province's location after it |
| LocationMatcher.PushProvinceOf | lib/location-matcher.ts:186-191 | pushes the location named as the city's province, when there is one |
| LocationMatcher.ProvinceTokenLoop | lib/location-matcher.ts:198-225 | the loop finds the first token matched at province level |
| LoadPrices.ParsedTiers | lib/loadPrices.ts:49-57 | a rule gets the parsed bands, or an empty list when there was no text or parsing failed |
| LoadPrices.CompanyNameOf | lib/loadPrices.ts:62 | CompanyName when non-empty, otherwise the linked 物流公司 value (absent when that is absent) |
| LoadPrices.ToPriceRule | lib/loadPrices.ts:43-75 | the rule name is 规则名称 or else RuleName, non-empty exactly when one of them is; the model type and companies are copied; tiers are present unless the parse produced nothing |
| LoadPrices.LoadRules | lib/loadPrices.ts:43-110 | the kept rules are exactly the mapped records that pass the validity filter, never more than the records (order: `LoadRulesConcat`) |
| LoadPrices.IsValidRule | lib/loadPrices.ts:78-110 | the filter as a predicate: a name and a model type required, both prices for first_additional, a minimum charge and bands for tiered_minimum_charge, bands for complex_tiered; `KeptFirstAdditionalIsPriced` and `UnknownModelTypeKept` state what it lets through |
| LoadPrices.LoadRulesConcat | lib/loadPrices.ts:43-110 | loading keeps the records' order: the rules of a concatenation are those of each part, in turn |
| LoadPrices.LoadRulesSingle | lib/loadPrices.ts:43-110 | one record gives its mapped rule when that rule is valid, and nothing otherwise |
| LoadPrices.FilterValidIdempotent | lib/loadPrices.ts:78-110 | filtering a filtered list changes nothing |
| LoadPrices.LoadRulesStable | lib/loadPrices.ts:78-110 | a loaded rule list passes the filter unchanged |
| LoadPrices.KeptFirstAdditionalIsPriced | lib/loadPrices.ts:92-96 | a kept first_additional rule is never priced -1: with the exception it costs weight × per-kg price, otherwise the first price up to the first weight and first price + ceil(weight − first weight) × per-kg price above it |
| LoadPrices.KeptTieredMinimumAtLeastMinimum | lib/loadPrices.ts:97-101 | a kept tiered_minimum_charge rule whose bands cover the weight charges at least its minimum |
| LoadPrices.UnknownModelTypeKept | lib/loadPrices.ts:86-109 | the filter as written keeps a named rule with model type `flat_rate`, which calculatePrice then rejects with an error |
| LoadPrices.LoadRulesChecked | lib/loadPrices.ts:43-110 | corrected loading: exactly the mapped records that pass the filter extended with a known-model-type check |
| LoadPrices.CheckedRulesNeverThrow | lib/price-calculator.ts:129-130 | every rule kept by the corrected filter prices every weight without an error |
| LoadLocations.ToLocation | lib/loadLocations.ts:47-55 | the id is copied; the name is 地点名 when non-empty, else the placeholder 未命名地点; rules are the linked rules or an empty list |
| LoadLocations.LoadLocations | lib/loadLocations.ts:47-60 | every kept location is valid, never more than the records (order: `LoadLocationsConcat`) |
| LoadLocations.IsValidLocation | lib/loadLocations.ts:57-60 | a location is kept when its name is non-empty and not the placeholder; `LoadLocationsKeeps` restates it per record |
| LoadLocations.LoadLocationsConcat | lib/loadLocations.ts:47-60 | loading keeps the records' order: the locations of a concatenation are those of each part, in turn |
| LoadLocations.LoadLocationsSingle | lib/loadLocations.ts:47-60 | one record gives its location when that location is named, and nothing otherwise |
| LoadLocations.LoadLocationsKeeps | lib/loadLocations.ts:58-60 | a record yields a location exactly when its name cell is non-empty and is not the placeholder |
| LoadLocations.LoadLocationsFromRecords | lib/loadLocations.ts:47-60 | every kept location comes from a record whose name cell it carries |
| AddressParser.InferMunicipalityFirst | lib/address-parser.ts:153-162 | a municipality resolves through the first table: 北京 gives 北京市 and 重庆 gives 重庆市, although the second table lists 重庆 too |
| AddressParser.InferIn | lib/address-parser.ts:151-203 | the lookup of `inferProvinceFromCity`: the municipality table, then the city table, else ""; `InferInKnown` states it in general |
| AddressParser.InferInKnown | lib/address-parser.ts:151-203 | a name in neither table gives ""; a non-empty result is a province one of the tables holds; a non-empty municipality entry decides before the city table |
| AddressParser.InferBareName | lib/address-parser.ts:165-202 | other cities resolve through the second table by their bare names: 包头 gives 内蒙古 |
| AddressParser.InferSuffixedName | lib/address-parser.ts:151-203 | the same city with its keyword attached, 包头市, is not found |
| AddressParser.KeywordsEndInKeywordEnds | lib/address-parser.ts:12-14 | every keyword is non-empty and ends in one of the keyword characters |
| AddressParser.SuffixedNameUnknown | lib/address-parser.ts:153-202 | no name of three or more characters ending in a keyword character is in either table |
| AddressParser.CityAt | lib/address-parser.ts:92 | the attempt of `([^，,。\s]{2,10}kw)` at one position: the greedy count of class characters first, backing off to 2 |
| AddressParser.CityFound | lib/address-parser.ts:92 | the leftmost successful attempt ends with the keyword and is contained in the text |
| AddressParser.CityMatch | lib/address-parser.ts:92-134 | a city match ends with the keyword and is contained in the text |
| AddressParser.CityMatchLeftmost | lib/address-parser.ts:92 | the match is the leftmost, and at its position the longest, run of class characters followed by the keyword |
| AddressParser.KeywordMatchEnds | lib/address-parser.ts:92 | every keyword match ends in the keyword's last character and is at least three characters long |
| AddressParser.MobileAt | lib/address-parser.ts:17 | `1[3-9]\d{9}` matches exactly when eleven digits start there, the first `1` and the second from 3 to 9; the match is eleven characters long |
| AddressParser.LocalAt | lib/address-parser.ts:17 | `\d{7,8}` fails exactly when fewer than seven digits follow, takes eight when eight follow, and otherwise seven |
| AddressParser.DashLocalAt | lib/address-parser.ts:17 | `-?\d{7,8}`: after a dash the match is the dash plus eight or seven digits, or fails; it never backs off to leave the dash out; without a dash it is the digits alone |
| AddressParser.LandlineAt | lib/address-parser.ts:17 | `0\d{2,3}-?\d{7,8}` starts with `0`; when a three-digit area code is followed by a local number that reading is taken; otherwise a two-digit area code is tried; it fails exactly when neither fits |
| AddressParser.ServiceTailAt | lib/address-parser.ts:17 | `\d{3}-?\d{4}` matches exactly when three digits are followed by four, with or without a dash between; the match is eight long exactly when the dash is there |
| AddressParser.ServiceAt | lib/address-parser.ts:17 | `400-?\d{3}-?\d{4}` starts with `400`, matches exactly when a tail follows with or without a dash after `400`, and takes that dash when it is there |
| AddressParser.PhoneAlternativesExclusive | lib/address-parser.ts:17 | mobile, landline and service numbers start with `1`, `0` and `4`, so at most one alternative matches at a position |
| AddressParser.PhoneAt | lib/address-parser.ts:17 | the attempt is a phone number at that position; it fails exactly when no alternative matches, and otherwise is the span of the alternative that does (at most one can, by `PhoneAlternativesExclusive`) |
| AddressParser.PhoneFound | lib/address-parser.ts:32-33 | the leftmost successful attempt is a phone number contained in the text |
| AddressParser.PhoneMatch | lib/address-parser.ts:32-33 | the phone is a phone number contained in the text |
| AddressParser.PhoneMatchLeftmost | lib/address-parser.ts:32-33 | the phone starts at the first position where the pattern matches |
| AddressParser.NameAt | lib/address-parser.ts:20 | the match is two to four ideographs followed by white space, the end or a comma; whenever some length from 2 to 4 fits, it succeeds with the longest |
| AddressParser.NameFound | lib/address-parser.ts:51-52 | the leftmost successful attempt is a name contained in the text |
| AddressParser.NameMatch | lib/address-parser.ts:51-52 | the name is a name of that shape contained in the text |
| AddressParser.NameMatchLeftmost | lib/address-parser.ts:51-52 | the name starts at the first position where the pattern matches |
| AddressParser.ListedProvince | lib/address-parser.ts:73-78 | the first province in list order that the text contains, or "" when it contains none |
| AddressParser.FirstWordCity | lib/address-parser.ts:108-122 | the first word after the province: kept when it contains a keyword, given 市 when 2–6 characters long, else no city |
| AddressParser.InferScan | lib/address-parser.ts:131-141 | each keyword match becomes the city and is looked up; the scan stops at the first lookup that gives a province |
| AddressParser.FindListedProvince | lib/address-parser.ts:73-78 | the loop with `break` returns the first listed province the text contains |
| AddressParser.FindKeywordCity | lib/address-parser.ts:89-105 | the loop returns the first keyword's match, the text after the province tried before the text before it |
| AddressParser.ScanKeywordCities | lib/address-parser.ts:131-141 | the fallback loop returns the specification's scan |
| AddressParser.FindCityNearProvince | lib/address-parser.ts:83-122 | the city looked for around a named province is the specification's |
| AddressParser.ParseProvinceCity | lib/address-parser.ts:68-144 | the method returns the specification's province and city |
| AddressParser.ProvinceCityIn | lib/address-parser.ts:68-144 | the specification of `parseProvinceCity`: the listed province and a city near it, else an inferred province, else the keyword scan; `ProvinceFirstListed`, `KeywordCityFirst`, `NoListedProvince` and `ProvinceOnlyListed` characterise it |
| AddressParser.BeforeWindow | lib/address-parser.ts:83-99 | the text searched before the province is the up to 20 characters ending at its first occurrence, all of them when fewer |
| AddressParser.AfterWindow | lib/address-parser.ts:83-91 | the text searched after the province is the up to 50 characters following its first occurrence, all of them when fewer |
| AddressParser.KeywordCityFirst | lib/address-parser.ts:89-105 | the city is the match of the first keyword that matches on either side, after tried before before; no city means no keyword matches on either side |
| AddressParser.ProvinceFirstListed | lib/address-parser.ts:73-122 | a province the text names wins: the first listed one, with the city looked for around it |
| AddressParser.NoListedProvince | lib/address-parser.ts:126-141 | a text naming no listed province falls through to the keyword scan |
| AddressParser.ScanWithoutMatches | lib/address-parser.ts:131-141 | a scan over keywords none of which match keeps its city and finds no province |
| AddressParser.ScanFindsNoProvince | lib/address-parser.ts:131-141 | with lookups that know no suffixed name, the scan never finds a province |
| AddressParser.ProvinceOnlyListedIn | lib/address-parser.ts:68-144 | over such tables, a province only ever comes from the list |
| AddressParser.SourceSuffixedUnknown | lib/address-parser.ts:151-203 | the source's lookup knows no name ending in a keyword character |
| AddressParser.ProvinceOnlyListed | lib/address-parser.ts:126-141 | as written, a province is found only by its listed name; the fallback scan never infers one |
| AddressParser.CityOnlyParseIn | lib/address-parser.ts:68-144 | a text naming no province and matched whole by the first keyword only parses to that city, and to no province when the lookup does not know the text |
| AddressParser.CityOnlyParse | lib/address-parser.ts:68-144 | the same over tables with the source's province list and keywords |
| AddressParser.BaotouParseIn | lib/address-parser.ts:131-141 | "包头市" over such tables parses to city 包头市 and no province |
| AddressParser.BaotouWithoutProvince | lib/address-parser.ts:131-141 | as written, "包头市" parses to no province although 包头 maps to 内蒙古 |
| AddressParser.InferScanStripped | lib/address-parser.ts:131-141 | corrected scan: a province comes from looking up a keyword match without its keyword |
| AddressParser.ProvinceCityStrippedIn | lib/address-parser.ts:68-144 | the corrected parse agrees with the original whenever the text names a listed province |
| AddressParser.StrippedScanAt | lib/address-parser.ts:133-140 | the corrected scan stops at the first keyword match whose bare name is known |
| AddressParser.StrippedFallbackInfers | lib/address-parser.ts:126-141 | corrected: a text naming no listed province takes the province of the first keyword match whose bare name is known |
| AddressParser.CityOnlyStripped | lib/address-parser.ts:131-141 | corrected: a city-only text takes the province its bare name maps to |
| AddressParser.BaotouStrippedIn | lib/address-parser.ts:131-141 | corrected: "包头市" over tables mapping 包头 to 内蒙古 gives 内蒙古 |
| AddressParser.BaotouStripped | lib/address-parser.ts:131-141 | corrected: "包头市" resolves to 内蒙古 |
| AddressParser.ParseAddress | lib/address-parser.ts:27-61 | the method returns the specification's parsed address |
| AddressParser.ParsedAddressShape | lib/address-parser.ts:27-61 | the address is the cleaned text, single-spaced and trimmed, keeping every other character in order; a phone is a phone number in it; a name is a name in the text left after removing phone, province and city; province and city are the parse of the address |
| AddressParser.CleanTextShape | lib/address-parser.ts:29 | the cleaned text is single-spaced and trimmed and keeps every other character in order |
| AddressParser.ReparseStable | lib/address-parser.ts:27-61 | parsing the address a parse returns gives the same result |
| AddressParser.FormatAddress | lib/address-parser.ts:219-235 | the method joins the lines with line breaks |
| AddressParser.FormatLinesShape | lib/address-parser.ts:219-234 | the lines come in the order name, phone, address, each present exactly when its field is truthy (the address line when province and city both are) |
| AddressParser.AddressLineIffValid | lib/address-parser.ts:210-232 | the formatted text has an address line exactly when the address validates |
| AddressParser.ValidateAddress | lib/address-parser.ts:210-212 | valid exactly when both province and city are non-empty; `AddressLineIffValid` ties it to `formatAddress` |
| AddressParser.FormatAddressLines | lib/address-parser.ts:219-235 | splitting the formatted text at line breaks gives back its lines, when no field holds a line break |
| ProvinceCityData.AllProvinces | lib/province-city-data.ts:132-134 | one province per entry, each entry's province at its own index |
| ProvinceCityData.CitiesByProvince | lib/province-city-data.ts:137-140 | the cities of the first entry for the province, or an empty list for an unknown province |
| ProvinceCityData.ValidateMeansListed | lib/province-city-data.ts:175-178 | a valid pair is one the table lists, the city under an entry for the province; with no province listed twice, every listed pair is valid |
| ProvinceCityData.ValidateProvinceCity | lib/province-city-data.ts:175-178 | the city is among `getCitiesByProvince`'s; `ValidateMeansListed` states what that means for the table |
| ProvinceCityData.CityHits | lib/province-city-data.ts:156-167 | one hit per city of the province that contains the query, in list order |
| ProvinceCityData.Search | lib/province-city-data.ts:143-172 | a blank query finds nothing; otherwise the result is the first hits: all of them when there are at most ten, exactly the first ten when there are more |
| ProvinceCityData.SearchProvinceCity | lib/province-city-data.ts:143-172 | the method with its nested loop returns the specification's search |
| ProvinceCityData.PushHits | lib/province-city-data.ts:149-169 | the outer loop pushes each entry's province hit and then its city hits |
| ProvinceCityData.PushCityHits | lib/province-city-data.ts:156-167 | the inner loop pushes the hit of every city containing the query, in order |
| ProvinceCityData.CityHitsSound | lib/province-city-data.ts:156-167 | every city hit names a listed city of its province that contains the query, and reads "province city" |
| ProvinceCityData.CityHitsComplete | lib/province-city-data.ts:156-167 | every listed city that contains the query is a hit |
| ProvinceCityData.HitsSound | lib/province-city-data.ts:149-169 | every hit is a province or a listed city that contains the query |
| ProvinceCityData.HitsComplete | lib/province-city-data.ts:149-169 | every province and every listed city containing the query is a hit |
| ProvinceCityData.Hits | lib/province-city-data.ts:146-169 | the hits before the cap, entry by entry; `HitsSound`, `HitsComplete`, `HitsAt` and `ProvinceHitFirst` characterise them |
| ProvinceCityData.HitsConcat | lib/province-city-data.ts:146-169 | the hits of a table split in two are the hits of the first part followed by those of the second |
| ProvinceCityData.HitsAt | lib/province-city-data.ts:146-169 | the hits keep table order: the earlier entries' hits, then the entry's province hit when it matches, then its city hits, then the later entries' hits |
| ProvinceCityData.ProvinceHitFirst | lib/province-city-data.ts:149-167 | when a province and one of its cities both contain the query, the province's hit comes before the city's |
| ProvinceCityData.EntryOptions | lib/province-city-data.ts:184-191 | one option per listed city of the entry, in order, reading "province city" |
| ProvinceCityData.GetAllProvinceCityOptions | lib/province-city-data.ts:181-195 | the method with its nested loop returns the specification's options, before the sort |
| ProvinceCityData.OptionsPerEntry | lib/province-city-data.ts:181-195 | as many options as listed cities; every listed city has its option and every option is a listed city |
| ProvinceCityData.CityHitsAreOptions | lib/province-city-data.ts:143-195 | every city hit of the search is one of the options |
| ProfitCalculator.RoundCents | lib/profit-calculator.ts:24-25 | the result is a whole number of cents, at most half a cent from the value, and never below 0 for a value ≥ 0 |
| ProfitCalculator.NPointRawPrice | lib/profit-calculator.ts:17 | the unrounded price times (1 − rate/100) is the cost |
| ProfitCalculator.NPointPrice | lib/profit-calculator.ts:8-27 | null exactly when cost ≤ 0, or the rate is < 0 or ≥ 100 |
| ProfitCalculator.NPointPriceMeaning | lib/profit-calculator.ts:17-26 | for valid inputs the unrounded price is ≥ cost and its profit is the requested share of it; price and profit are those amounts to the cent; the profit is ≥ 0 and taxPrice is 0 |
| ProfitCalculator.ProfitRawRate | lib/profit-calculator.ts:43 | the unrounded rate times the price is 100 × (price − cost) |
| ProfitCalculator.ProfitPoint | lib/profit-calculator.ts:34-48 | null exactly when cost ≤ 0 or price ≤ 0 |
| ProfitCalculator.ProfitPointMeaning | lib/profit-calculator.ts:43-47 | for valid inputs the unrounded rate is < 100 and the result is that rate to the cent, never above 100 |
| ProfitCalculator.NPointThenProfitPoint | lib/profit-calculator.ts:17-43 | the rate of the n-point price is the rate asked for (the two calculators undo each other) |
| ProfitCalculator.ProfitPointThenNPoint | lib/profit-calculator.ts:17-43 | the n-point price of the rate a price gives is that price |
| ProfitCalculator.SavedShape | lib/profit-calculator.ts:83-103 | a duplicate leaves the history unchanged; otherwise the record is first, the old records follow in order, at most five in all |
| ProfitCalculator.Saved | lib/profit-calculator.ts:78-109 | the history after a save; `SavedShape` and `SaveIdempotent` characterise it |
| ProfitCalculator.SaveIdempotent | lib/profit-calculator.ts:83-103 | saving the same calculation twice is saving it once |
| ProfitCalculator.CalculationHistory.constructor | lib/profit-calculator.ts:115-123 | a new history is empty |
| ProfitCalculator.CalculationHistory.Get | lib/profit-calculator.ts:115-123 | returns the saved records |
| ProfitCalculator.CalculationHistory.Save | lib/profit-calculator.ts:78-109 | the duplicate scan and the update give the specification's history, and a history of at most five records stays at most five |
| ProfitCalculator.CalculationHistory.Clear | lib/profit-calculator.ts:128-134 | the history is empty afterwards |
| AirtableClient.UnhandledUnchanged | lib/airtable-client.ts:76-138 | a record with an unknown company, or a falsy region or price data, changes nothing |
| AirtableClient.AnnengAnyRegion | lib/airtable-client.ts:113-123 | a standard Anneng record with any truthy region and truthy price data appends its row, whatever the region's value |
| AirtableClient.Applied | lib/airtable-client.ts:67-139 | one record's step of the conversion; `UnhandledUnchanged`, `AppliedRegions`, `AppliedRates` and `AppliedAnneng` state what it changes |
| AirtableClient.Transformed | lib/airtable-client.ts:60-142 | the records applied in order to the empty structure; the `*LastRecordWins`, `*OnlyWritten*` and `AnnengInRecordOrder` lemmas state its contents |
| AirtableClient.AppliedRegions | lib/airtable-client.ts:91-111 | an SF record sets exactly its region's {first_kg, additional_per_kg}, a Shentong record its region's {base, extra_per_kg}; no other record touches those sections |
| AirtableClient.WithRateKeepsOthers | lib/airtable-client.ts:80-87 | setting one city's rate creates the province when absent and keeps its other cities and every other province |
| AirtableClient.AppliedRates | lib/airtable-client.ts:78-89 | a Xinliang record sets the rate of the province and city its region splits into; no other record touches that section |
| AirtableClient.AppliedAnneng | lib/airtable-client.ts:113-137 | the Anneng carriers append one row each to their own list only |
| AirtableClient.ChineseFieldsFirst | lib/airtable-client.ts:70-73 | with the Chinese fields filled in, the English aliases do not matter |
| AirtableClient.AnnengInRecordOrder | lib/airtable-client.ts:113-137 | each Anneng list holds the rows of its own carrier's records, in record order |
| AirtableClient.SfLastRecordWins | lib/airtable-client.ts:91-100 | an SF region holds the rate of the last record for it: a later record overwrites |
| AirtableClient.SfOnlyWrittenRegions | lib/airtable-client.ts:91-100 | a region no SF record names has no SF rate |
| AirtableClient.ShentongLastRecordWins | lib/airtable-client.ts:102-111 | a Shentong region holds the rate of the last record for it |
| AirtableClient.ShentongOnlyWrittenRegions | lib/airtable-client.ts:102-111 | a region no Shentong record names has no Shentong rate |
| AirtableClient.RateLastRecordWins | lib/airtable-client.ts:78-89 | a Xinliang city holds the rate of the last record for that province and city |
| AirtableClient.RateOnlyWrittenCities | lib/airtable-client.ts:78-89 | a province and city no Xinliang record names has no rate |
| AirtableClient.LogisticsData.constructor | lib/airtable-client.ts:61-66 | the conversion starts from four empty sections |
| AirtableClient.LogisticsData.Add | lib/airtable-client.ts:67-139 | one step of the loop updates the data in place to the specification's next state |
| AirtableClient.TransformAirtableData | lib/airtable-client.ts:60-142 | a new structure holding every record applied in order |

## Left out

- Network and asynchronous loading are not modelled: the paged fetch loops and environment checks of `lib/loadPrices.ts` and `lib/loadLocations.ts`, `fetchLogisticsDataFromAirtable` and `initializeLogisticsData` in `lib/airtable-client.ts`, and `lib/client-data-loader.ts`. The model starts from the records those loops would return.
- Browser storage and the clipboard are not modelled: the profit history is an in-memory `CalculationHistory`, so `localStorage`, its JSON encoding and the `try`/`catch` around it are gone, and `copyToClipboard` is left out.
- The clock: a calculation record's id and timestamp are ordinary fields of the record passed in.
- `formatPrice` (both copies) and `toFixed(2)` are left out: they only format a number as text.
- `getAllProvinceCityOptions` is stated without its `localeCompare(…, 'zh-CN')` sort: the model keeps table order, and the lemmas speak of which options exist, not of their order.
- `JSON.parse` is a parameter. Tier text is a `TiersCell` that is already parsed or marked unparsable, which gives `[]` as the code's `catch` does. Airtable price data is parsed by a `parse: string -> Value` function, so a parse that throws is not modelled.
- Reading a field of parsed price data that is not an object gives `Undefined`; JavaScript would throw for `null` and `undefined`. `null` and `undefined` are also not told apart where the code only tests truthiness.
- In the Airtable conversion, a Xinliang, SF or Shentong record whose region is truthy but not text is skipped; JavaScript would throw in `split` or coerce the value to a key. Anneng records use no region value and are appended for any truthy region, as in the code.
- Object lookups ignore inherited prototype keys such as `constructor`: a table literal is a Dafny `map` holding only its own entries.
- Lower-casing (`JsString.ToLower`) maps only `A`–`Z`; the Unicode case mapping of other letters is not modelled. All the tables' names are Chinese, which have no case.
- Strings are sequences of characters. JavaScript lengths count UTF-16 code units, which is the same for the Chinese characters in the tables but not for characters outside the Basic Multilingual Plane.
- Numbers are mathematical reals: IEEE rounding, `NaN` and infinities are not modelled.
- A weight band's `upToKg` of `None` is unbounded. In the code only an explicit `null` is unbounded (lib/price-calculator.ts:67, 90, 119): a band whose JSON omits `upToKg` reads as `undefined`, and `weight <= undefined` is false, so that band never covers a weight. The model does not tell the two apart.
- The large constant tables are written out. Most proofs are generic over a table parameter and are then applied to the library's own table.
- `getAllSupportedProvinces` and `getAllCitySuffixes` in `lib/name-normalizer.ts` are left out. They only list table contents.
- The React pages and components, `next.config.js` and `environment.d.ts` are left out: rendering and configuration.
- The provider resolvers and the quote aggregator that `app/page.tsx` imports are not among the source files, so they are not part of this model.

## Findings

| source | as written | input that shows it | evidently intended | confidence | as-written member | corrected member |
|---|---|---|---|---|---|---|
| lib/loadPrices.ts:86-108 | the filter drops a rule without a model type but keeps one whose model type is not one of the four tags | a named rule with ModelType `flat_rate`: it is kept, and pricing it throws the unknown-type error of lib/price-calculator.ts:129-130 | keep only rules whose model type the evaluator knows, so that no loaded rule throws | not executed | LoadPrices.UnknownModelTypeKept | LoadPrices.CheckedRulesNeverThrow |
| lib/location-matcher.ts:180-192 | a city-level token match pushes the parent province's location without the id check that stage 2 makes | the address `北京 朝阳` with one location `北京市`: the table maps `北京市` to `北京市`, so the candidates are `[北京市, 北京市]` | push the parent only when it is not the matched location, as at lib/location-matcher.ts:137-142 | not executed | LocationMatcher.TokenFallbackRepeatsMunicipality | LocationMatcher.CheckedListsMunicipalityOnce |
| lib/address-parser.ts:131-141 | the fallback looks up the keyword match, keyword included, in tables keyed by bare names, so it never finds a province | `包头市`: the city is `包头市` and the province stays empty, although `包头` maps to 内蒙古 | look up the match without its keyword | not executed | AddressParser.BaotouWithoutProvince | AddressParser.BaotouStripped |

The as-written members model the code as it is, and the rest of the model follows the code. Each corrected definition sits beside its original with the intended property proved about it: `LoadPrices.LoadRulesChecked`, `LocationMatcher.TokenFallbackCheckedDistinct` and `AddressParser.StrippedFallbackInfers`.
