/**
 * Turning the price table's records into price rules, and dropping the rules
 * that lack a name, a model type or the fields their model type needs.
 */
module LoadPrices {
  import opened Wrappers
  import opened JsNumber
  import opened JsString
  import opened JsArray
  import opened Pricing
  import opened PriceCalculator

  /** The Tiers cell of a record: no text to parse, text that is not JSON, or the parsed JSON (null or a band list). */
  datatype TiersCell = NoTiersText | Unparsable | Parsed(tiers: Option<seq<PriceTier>>)

  /** The fields of one price-table record, under their Chinese and English column names. */
  datatype PriceRecord = PriceRecord(
    ruleNameZh: Option<string>,
    ruleNameEn: Option<string>,
    company: Option<seq<string>>,
    companyNameText: Option<string>,
    client: Option<seq<string>>,
    destination: Option<string>,
    modelType: Option<string>,
    minimumCharge: Option<real>,
    firstWeightPrice: Option<real>,
    firstWeightKg: Option<real>,
    additionalWeightPricePerKg: Option<real>,
    tiersCell: TiersCell,
    timeliness: Option<string>,
    exceptionThresholdKg: Option<real>,
    exceptionFormula: Option<string>)

  /** The bands a rule gets: the parsed JSON, or an empty list when there was nothing to parse or parsing failed. */
  function ParsedTiers(cell: TiersCell): (r: Option<seq<PriceTier>>)
    ensures cell.Parsed? ==> r == cell.tiers
    ensures !cell.Parsed? ==> r == Some([])
  {
    match cell
    case Parsed(tiers) => tiers
    case _ => Some([])
  }

  /** `CompanyName || 物流公司`: the plain name when non-empty, otherwise the linked companies. */
  function CompanyNameOf(text: Option<string>, links: Option<seq<string>>): (r: Option<CompanyRef>)
    ensures NonEmpty(text) ==> r == Some(CompanyLabel(text.value))
    ensures !NonEmpty(text) ==> (r.Some? <==> links.Some?) && (links.Some? ==> r == Some(CompanyLinks(links.value)))
  {
    if NonEmpty(text) then Some(CompanyLabel(text.value))
    else if links.Some? then Some(CompanyLinks(links.value))
    else None
  }

  /** The mapping from a record to a price rule. */
  function ToPriceRule(rec: PriceRecord): (rule: PriceRule)
    ensures rule.ruleName == OrText(rec.ruleNameZh, rec.ruleNameEn)
    ensures NonEmpty(rule.ruleName) <==> NonEmpty(rec.ruleNameZh) || NonEmpty(rec.ruleNameEn)
    ensures rule.tiers.Some? <==> !(rec.tiersCell.Parsed? && rec.tiersCell.tiers.None?)
    ensures rule.modelType == rec.modelType && rule.company == rec.company
  {
    PriceRule(
      ruleName := OrText(rec.ruleNameZh, rec.ruleNameEn),
      company := rec.company,
      companyName := CompanyNameOf(rec.companyNameText, rec.company),
      client := rec.client,
      destination := rec.destination,
      modelType := rec.modelType,
      minimumCharge := rec.minimumCharge,
      firstWeightPrice := rec.firstWeightPrice,
      firstWeightKg := rec.firstWeightKg,
      additionalWeightPricePerKg := rec.additionalWeightPricePerKg,
      tiers := ParsedTiers(rec.tiersCell),
      timeliness := rec.timeliness,
      exceptionThresholdKg := rec.exceptionThresholdKg,
      exceptionFormula := rec.exceptionFormula)
  }

  predicate HasTiers(rule: PriceRule) {
    rule.tiers.Some? && |rule.tiers.value| > 0
  }

  /**
   * The validity filter as written: a name and a model type are required;
   * first_additional needs both prices, tiered_minimum_charge a minimum charge
   * and bands, complex_tiered bands; any other model type passes.
   */
  predicate IsValidRule(rule: PriceRule) {
    && NonEmpty(rule.ruleName)
    && NonEmpty(rule.modelType)
    && (rule.modelType.value == FirstAdditionalTag ==>
          Truthy(rule.firstWeightPrice) && Truthy(rule.additionalWeightPricePerKg))
    && (rule.modelType.value == TieredMinimumChargeTag ==>
          Truthy(rule.minimumCharge) && HasTiers(rule))
    && (rule.modelType.value == ComplexTieredTag ==> HasTiers(rule))
  }

  /** `getPriceRules` after fetching: map every record, keep the valid rules in order. */
  function LoadRules(records: seq<PriceRecord>): (rules: seq<PriceRule>)
    ensures |rules| <= |records|
    ensures forall r :: r in rules <==> r in Map(records, ToPriceRule) && IsValidRule(r)
  {
    Filter(Map(records, ToPriceRule), IsValidRule)
  }

  /** Loading keeps the records' order: the rules of a concatenation are the rules of each part, in turn. */
  lemma LoadRulesConcat(a: seq<PriceRecord>, b: seq<PriceRecord>)
    ensures LoadRules(a + b) == LoadRules(a) + LoadRules(b)
  {
    MapConcat(a, b, ToPriceRule);
    FilterConcat(Map(a, ToPriceRule), Map(b, ToPriceRule), IsValidRule);
  }

  /** One record gives its rule when the rule is valid, and nothing otherwise. */
  lemma LoadRulesSingle(rec: PriceRecord)
    ensures LoadRules([rec]) == if IsValidRule(ToPriceRule(rec)) then [ToPriceRule(rec)] else []
  {
    assert Map([rec], ToPriceRule) == [ToPriceRule(rec)];
    assert [ToPriceRule(rec)][1..] == [];
  }

  /** Filtering an already filtered list keeps every rule. */
  lemma {:induction false} FilterValidIdempotent(rules: seq<PriceRule>)
    ensures Filter(Filter(rules, IsValidRule), IsValidRule) == Filter(rules, IsValidRule)
  {
    if rules != [] {
      FilterValidIdempotent(rules[1..]);
    }
  }

  /** A loaded rule list passes the filter unchanged. */
  lemma LoadRulesStable(records: seq<PriceRecord>)
    ensures Filter(LoadRules(records), IsValidRule) == LoadRules(records)
  {
    FilterValidIdempotent(Map(records, ToPriceRule));
  }

  /** A kept first_additional rule never takes the not-applicable branch: it is priced by the exception or by first plus additional weight. */
  lemma KeptFirstAdditionalIsPriced(weight: real, rule: PriceRule)
    requires IsValidRule(rule) && rule.modelType == Some(FirstAdditionalTag) && weight > 0.0
    ensures ExceptionApplies(weight, rule.exceptionThresholdKg, rule.exceptionFormula) ==>
              RulePrice(weight, rule) == Ok(weight * rule.additionalWeightPricePerKg.value)
    ensures !ExceptionApplies(weight, rule.exceptionThresholdKg, rule.exceptionFormula) && weight <= OrElse(rule.firstWeightKg, 1.0) ==>
              RulePrice(weight, rule) == Ok(rule.firstWeightPrice.value)
    ensures !ExceptionApplies(weight, rule.exceptionThresholdKg, rule.exceptionFormula) && weight > OrElse(rule.firstWeightKg, 1.0) ==>
              RulePrice(weight, rule) == Ok(rule.firstWeightPrice.value
                                            + Ceil(weight - OrElse(rule.firstWeightKg, 1.0)) as real * rule.additionalWeightPricePerKg.value)
  {
    if ExceptionApplies(weight, rule.exceptionThresholdKg, rule.exceptionFormula) {
      FirstAdditionalException(weight, rule, 1.0);
    } else {
      FirstAdditionalStandard(weight, rule);
    }
  }

  /** A kept tiered_minimum_charge rule whose bands cover the weight charges at least its minimum. */
  lemma KeptTieredMinimumAtLeastMinimum(weight: real, rule: PriceRule, k: nat)
    requires IsValidRule(rule) && rule.modelType == Some(TieredMinimumChargeTag) && weight > 0.0
    requires k < |rule.tiers.value| && Covers(rule.tiers.value[k], weight)
    ensures RulePrice(weight, rule).Ok? && RulePrice(weight, rule).value >= rule.minimumCharge.value
  {
    var first := FindIndex(rule.tiers.value, t => Covers(t, weight));
    TieredMinimumChargeFirstCovering(weight, rule, first.value);
  }

  /** The filter as written keeps a rule whose model type the evaluator rejects. */
  lemma UnknownModelTypeKept()
    ensures var rule := PriceRule(Some("rule"), None, None, None, None, Some("flat_rate"),
                                  None, None, None, None, Some([]), None, None, None);
            IsValidRule(rule) && RulePrice(1.0, rule) == Err(UnknownModelType("flat_rate"))
  {
    var rule := PriceRule(Some("rule"), None, None, None, None, Some("flat_rate"),
                          None, None, None, None, Some([]), None, None, None);
    assert ParseModelKind("flat_rate") == None by {
      assert "flat_rate" != FirstAdditionalTag && "flat_rate" != TieredMinimumChargeTag;
      assert "flat_rate" != ComplexTieredTag && "flat_rate" != FirstPlusTieredFlatRateTag;
    }
  }

  /** The filter with the model type also required to be one the evaluator knows. */
  predicate IsValidRuleChecked(rule: PriceRule) {
    IsValidRule(rule) && ParseModelKind(rule.modelType.value).Some?
  }

  /** Loading with the corrected filter. */
  function LoadRulesChecked(records: seq<PriceRecord>): (rules: seq<PriceRule>)
    ensures |rules| <= |records|
    ensures forall r :: r in rules <==> r in Map(records, ToPriceRule) && IsValidRuleChecked(r)
  {
    Filter(Map(records, ToPriceRule), IsValidRuleChecked)
  }

  /** Every rule kept by the corrected filter prices every weight without an error. */
  lemma CheckedRulesNeverThrow(records: seq<PriceRecord>, weight: real)
    ensures forall r :: r in LoadRulesChecked(records) ==> RulePrice(weight, r).Ok?
  {
  }
}
