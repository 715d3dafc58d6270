/**
 * The pricing vocabulary: weight bands, the four pricing models and the
 * price rule as loaded from the rule store, where every field is optional.
 */
module Pricing {
  import opened Wrappers

  /**
   * One weight band. `upToKg == None` is the source's `null`: the band has no
   * upper bound and covers any weight.
   */
  datatype PriceTier = PriceTier(
    upToKg: Option<real>,
    pricePerKg: Option<real>,
    flatPrice: Option<real>,
    baseFee: Option<real>)

  /** The three rounding modes of a complex_tiered model: 'up_to_0.2', 'up_to_1' and 'none'. */
  datatype Rounding = UpToFifth | UpToOne | NoRounding

  /** The closed set of model tags a rule's ModelType may name. */
  datatype ModelKind = FirstAdditionalKind | TieredMinimumChargeKind | ComplexTieredKind | FirstPlusTieredFlatRateKind

  const FirstAdditionalTag: string := "first_additional"
  const TieredMinimumChargeTag: string := "tiered_minimum_charge"
  const ComplexTieredTag: string := "complex_tiered"
  const FirstPlusTieredFlatRateTag: string := "first_plus_tiered_flat_rate"

  /** The only exception formula a first_additional rule may carry. */
  const PerKgOnly: string := "per_kg_only"

  function KindTag(kind: ModelKind): string {
    match kind
    case FirstAdditionalKind => FirstAdditionalTag
    case TieredMinimumChargeKind => TieredMinimumChargeTag
    case ComplexTieredKind => ComplexTieredTag
    case FirstPlusTieredFlatRateKind => FirstPlusTieredFlatRateTag
  }

  /** The switch on `model.type`: one of the four tags, or nothing (the `default` branch). */
  function ParseModelKind(tag: string): (r: Option<ModelKind>)
    ensures r.Some? <==> tag in {FirstAdditionalTag, TieredMinimumChargeTag, ComplexTieredTag, FirstPlusTieredFlatRateTag}
    ensures r.Some? ==> KindTag(r.value) == tag
  {
    if tag == FirstAdditionalTag then Some(FirstAdditionalKind)
    else if tag == TieredMinimumChargeTag then Some(TieredMinimumChargeKind)
    else if tag == ComplexTieredTag then Some(ComplexTieredKind)
    else if tag == FirstPlusTieredFlatRateTag then Some(FirstPlusTieredFlatRateKind)
    else None
  }

  /** ModelType admits exactly the four variant tags, and each tag names one variant. */
  lemma ModelKindRoundTrip(kind: ModelKind)
    ensures ParseModelKind(KindTag(kind)) == Some(kind)
  {
  }

  /**
   * The four pricing models, each carrying only its own fields. Required fields
   * that the rule may still lack are optional here, because the evaluator
   * builds a model from a rule without checking them first.
   */
  datatype PricingModel =
    | TieredMinimumCharge(minimumCharge: Option<real>, tiers: Option<seq<PriceTier>>)
    | FirstAdditional(
        firstWeightKg: real,
        firstWeightPrice: Option<real>,
        additionalWeightPricePerKg: Option<real>,
        exceptionThresholdKg: Option<real>,
        exceptionFormula: Option<string>)
    | ComplexTiered(rounding: Option<Rounding>, tiers: Option<seq<PriceTier>>)
    | FirstPlusTieredFlatRate(firstWeightKg: real, firstWeightPrice: Option<real>, tiers: Option<seq<PriceTier>>)

  /** The company name of a rule: a plain name, or the linked company record ids it falls back to. */
  datatype CompanyRef = CompanyLabel(name: string) | CompanyLinks(ids: seq<string>)

  /** A price rule as held in memory after loading; every field may be absent. */
  datatype PriceRule = PriceRule(
    ruleName: Option<string>,
    company: Option<seq<string>>,
    companyName: Option<CompanyRef>,
    client: Option<seq<string>>,
    destination: Option<string>,
    modelType: Option<string>,
    minimumCharge: Option<real>,
    firstWeightPrice: Option<real>,
    firstWeightKg: Option<real>,
    additionalWeightPricePerKg: Option<real>,
    tiers: Option<seq<PriceTier>>,
    timeliness: Option<string>,
    exceptionThresholdKg: Option<real>,
    exceptionFormula: Option<string>)
}
