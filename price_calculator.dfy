/**
 * The pricing-rule evaluator: given a weight and one price rule it builds the
 * rule's pricing model and computes a price, the sentinel -1 ("not
 * applicable"), or an error for a missing or unknown model type.
 */
module PriceCalculator {
  import opened Wrappers
  import opened JsNumber
  import opened JsString
  import opened JsArray
  import opened Pricing

  /** The price that means "this rule does not apply". */
  const NotApplicable: real := -1.0

  /** The two errors `calculatePrice` throws. */
  datatype PriceError = MissingModelType | UnknownModelType(tag: string)

  predicate IsFifthMultiple(x: real) {
    (x * 5.0).Floor as real == x * 5.0
  }

  predicate IsWhole(x: real) {
    x.Floor as real == x
  }

  /** `applyRounding`: rounds a price up to the next multiple of 0.2 or of 1, or leaves it. */
  function ApplyRounding(price: real, rounding: Option<Rounding>): (r: real)
    ensures rounding == None || rounding == Some(NoRounding) ==> r == price
    ensures price <= r
  {
    match rounding
    case None => price
    case Some(NoRounding) => price
    case Some(UpToFifth) => Ceil(price * 5.0) as real / 5.0
    case Some(UpToOne) => Ceil(price) as real
  }

  /** round_up_to_0.2 gives the least multiple of 0.2 that is not below the price. */
  lemma ApplyRoundingUpToFifth(price: real)
    ensures var r := ApplyRounding(price, Some(UpToFifth));
            IsFifthMultiple(r) && price <= r < price + 0.2
            && forall m :: IsFifthMultiple(m) && price <= m ==> r <= m
  {
    var c := Ceil(price * 5.0);
    var r := c as real / 5.0;
    assert r == ApplyRounding(price, Some(UpToFifth));
    assert r * 5.0 == c as real;
    assert IsFifthMultiple(r) by {
      assert (c as real).Floor == c;
    }
    assert price <= r < price + 0.2 by {
      assert price * 5.0 <= c as real < price * 5.0 + 1.0;
    }
    forall m | IsFifthMultiple(m) && price <= m
      ensures r <= m
    {
      FifthMultipleAbove(price, m, c);
    }
  }

  /** A multiple of 0.2 not below the price is not below the rounded-up one either. */
  lemma FifthMultipleAbove(price: real, m: real, c: int)
    requires IsFifthMultiple(m) && price <= m && c == Ceil(price * 5.0)
    ensures c as real / 5.0 <= m
  {
    var n := (m * 5.0).Floor;
    assert n as real == m * 5.0;
    assert n as real >= price * 5.0;
    assert c as real < price * 5.0 + 1.0;
    assert n >= c;
  }

  /** round_up_to_1 gives the least whole number that is not below the price. */
  lemma ApplyRoundingUpToOne(price: real)
    ensures var r := ApplyRounding(price, Some(UpToOne));
            IsWhole(r) && price <= r < price + 1.0
            && forall m :: IsWhole(m) && price <= m ==> r <= m
  {
    var c := Ceil(price);
    forall m | IsWhole(m) && price <= m
      ensures c as real <= m
    {
      assert m.Floor >= c;
    }
  }

  /** Rounding an already rounded price changes nothing. */
  lemma ApplyRoundingIdempotent(price: real, rounding: Option<Rounding>)
    ensures ApplyRounding(ApplyRounding(price, rounding), rounding) == ApplyRounding(price, rounding)
  {
    match rounding
    case None =>
    case Some(NoRounding) =>
    case Some(UpToFifth) =>
      var c := Ceil(price * 5.0);
      assert (c as real / 5.0) * 5.0 == c as real;
      CeilOfInteger(c);
    case Some(UpToOne) =>
      CeilOfInteger(Ceil(price));
  }

  /** A band covers a weight when it is unbounded or its bound is at least the weight. */
  predicate Covers(tier: PriceTier, weight: real) {
    tier.upToKg.None? || weight <= tier.upToKg.value
  }

  /** A complex_tiered band is usable only with a truthy flat price or per-kg price. */
  predicate HasRate(tier: PriceTier) {
    Truthy(tier.flatPrice) || Truthy(tier.pricePerKg)
  }

  /** The charge of the band a tiered_minimum_charge model selected, before the minimum applies. */
  function TierCharge(tier: PriceTier, weight: real): real {
    if Truthy(tier.flatPrice) then tier.flatPrice.value
    else if Truthy(tier.pricePerKg) then weight * tier.pricePerKg.value
    else 0.0
  }

  /** The charge of a usable complex_tiered band, before rounding. */
  function ComplexCharge(tier: PriceTier, weight: real): real
    requires HasRate(tier)
  {
    if Truthy(tier.flatPrice) then tier.flatPrice.value
    else if Truthy(tier.baseFee) then tier.baseFee.value + weight * tier.pricePerKg.value
    else weight * tier.pricePerKg.value
  }

  /** Whether the first_additional exception applies: a truthy threshold reached with formula per_kg_only. */
  predicate ExceptionApplies(weight: real, threshold: Option<real>, formula: Option<string>) {
    Truthy(threshold) && weight >= threshold.value && formula == Some(PerKgOnly)
  }

  /** The price a model gives a positive weight: the four branches of the switch. */
  function ModelPrice(weight: real, model: PricingModel): real {
    match model
    case FirstAdditional(firstKg, firstPrice, perKg, threshold, formula) =>
      if !Truthy(firstPrice) || !Truthy(perKg) then NotApplicable
      else if ExceptionApplies(weight, threshold, formula) then weight * perKg.value
      else if weight <= firstKg then firstPrice.value
      else firstPrice.value + Ceil(weight - firstKg) as real * perKg.value
    case TieredMinimumCharge(minimumCharge, tiers) =>
      if tiers.None? || !Truthy(minimumCharge) then NotApplicable
      else (match FindIndex(tiers.value, t => Covers(t, weight))
        case None => NotApplicable
        case Some(i) => Max(TierCharge(tiers.value[i], weight), minimumCharge.value))
    case ComplexTiered(rounding, tiers) =>
      if tiers.None? then NotApplicable
      else (match FindIndex(tiers.value, t => Covers(t, weight) && HasRate(t))
        case None => NotApplicable
        case Some(i) => ApplyRounding(ComplexCharge(tiers.value[i], weight), rounding))
    case FirstPlusTieredFlatRate(firstKg, firstPrice, tiers) =>
      if !Truthy(firstPrice) || tiers.None? then NotApplicable
      else if weight <= firstKg then firstPrice.value
      else match FindIndex(tiers.value, t => Covers(t, weight) && Truthy(t.flatPrice))
        case None => NotApplicable
        case Some(i) => tiers.value[i].flatPrice.value
  }

  /** The model of one kind that `calculatePrice` builds from a rule; FirstWeightKg defaults to 1 and no rounding is ever set. */
  function ModelOf(kind: ModelKind, rule: PriceRule): (m: PricingModel)
    ensures KindTag(kind) == FirstAdditionalTag <==> m.FirstAdditional?
    ensures m.ComplexTiered? ==> m.rounding == None
  {
    var firstKg := OrElse(rule.firstWeightKg, 1.0);
    match kind
    case FirstAdditionalKind =>
      FirstAdditional(firstKg, rule.firstWeightPrice, rule.additionalWeightPricePerKg,
                      rule.exceptionThresholdKg, rule.exceptionFormula)
    case TieredMinimumChargeKind => TieredMinimumCharge(rule.minimumCharge, rule.tiers)
    case ComplexTieredKind => ComplexTiered(None, rule.tiers)
    case FirstPlusTieredFlatRateKind => FirstPlusTieredFlatRate(firstKg, rule.firstWeightPrice, rule.tiers)
  }

  /** The model `calculatePrice` builds from a rule, or the error it throws for a missing or unknown ModelType. */
  function BuildModel(rule: PriceRule): (r: Result<PricingModel, PriceError>)
    ensures r.Err? <==> !NonEmpty(rule.modelType) || ParseModelKind(rule.modelType.value).None?
    ensures r.Ok? ==> r.value.ComplexTiered? ==> r.value.rounding == None
  {
    if !NonEmpty(rule.modelType) then Err(MissingModelType)
    else match ParseModelKind(rule.modelType.value)
      case None => Err(UnknownModelType(rule.modelType.value))
      case Some(kind) => Ok(ModelOf(kind, rule))
  }

  /**
   * `calculatePrice` as a value: weight <= 0 costs 0 before the rule is looked
   * at; otherwise a missing or unknown model type is an error.
   */
  function RulePrice(weight: real, rule: PriceRule): (r: Result<real, PriceError>)
    ensures weight <= 0.0 ==> r == Ok(0.0)
    ensures weight > 0.0 ==> (r.Err? <==> !NonEmpty(rule.modelType) || ParseModelKind(rule.modelType.value).None?)
    ensures weight > 0.0 && !NonEmpty(rule.modelType) ==> r == Err(MissingModelType)
  {
    if weight <= 0.0 then Ok(0.0)
    else match BuildModel(rule)
      case Err(e) => Err(e)
      case Ok(model) => Ok(ModelPrice(weight, model))
  }

  /** `calculatePrice`, with the tier scans as the loops the source runs. */
  method CalculatePrice(weight: real, rule: PriceRule) returns (r: Result<real, PriceError>)
    ensures r == RulePrice(weight, rule)
  {
    if weight <= 0.0 {
      return Ok(0.0);
    }
    var built := BuildModel(rule);
    if built.Err? {
      return Err(built.error);
    }
    var price := EvaluateModel(weight, built.value);
    return Ok(price);
  }

  /** The switch on the model type, scanning tiers first-match in array order. */
  method EvaluateModel(weight: real, model: PricingModel) returns (price: real)
    ensures price == ModelPrice(weight, model)
  {
    match model
    case FirstAdditional(firstKg, firstPrice, perKg, threshold, formula) =>
      price := FirstAdditionalPrice(weight, firstKg, firstPrice, perKg, threshold, formula);
    case TieredMinimumCharge(minimumCharge, tiers) =>
      price := TieredMinimumChargePrice(weight, minimumCharge, tiers);
    case ComplexTiered(rounding, tiers) =>
      price := ComplexTieredPrice(weight, rounding, tiers);
    case FirstPlusTieredFlatRate(firstKg, firstPrice, tiers) =>
      price := FirstPlusTieredFlatRatePrice(weight, firstKg, firstPrice, tiers);
  }

  /** first_additional: the per_kg_only exception, else the first price plus every started extra kilogram. */
  method FirstAdditionalPrice(weight: real, firstKg: real, firstPrice: Option<real>, perKg: Option<real>,
                              threshold: Option<real>, formula: Option<string>) returns (price: real)
    ensures price == ModelPrice(weight, FirstAdditional(firstKg, firstPrice, perKg, threshold, formula))
  {
    if !Truthy(firstPrice) || !Truthy(perKg) {
      return NotApplicable;
    }
    if Truthy(threshold) && weight >= threshold.value {
      if formula == Some(PerKgOnly) {
        return weight * perKg.value;
      }
    }
    assert !ExceptionApplies(weight, threshold, formula);
    if weight <= firstKg {
      return firstPrice.value;
    }
    var additionalWeight := Ceil(weight - firstKg);
    return firstPrice.value + additionalWeight as real * perKg.value;
  }

  /** tiered_minimum_charge: the first tier covering the weight, never below the minimum charge. */
  method TieredMinimumChargePrice(weight: real, minimumCharge: Option<real>, tiers: Option<seq<PriceTier>>)
    returns (price: real)
    ensures price == ModelPrice(weight, TieredMinimumCharge(minimumCharge, tiers))
  {
    if tiers.None? || !Truthy(minimumCharge) {
      return NotApplicable;
    }
    var ts := tiers.value;
    var selected: Option<nat> := None;
    var i := 0;
    while i < |ts|
      invariant 0 <= i <= |ts|
      invariant selected.None?
      invariant forall j :: 0 <= j < i ==> !Covers(ts[j], weight)
    {
      if Covers(ts[i], weight) {
        selected := Some(i);
        break;
      }
      i := i + 1;
    }
    if selected.None? {
      return NotApplicable;
    }
    FindIndexFirst(ts, t => Covers(t, weight), selected.value);
    return Max(TierCharge(ts[selected.value], weight), minimumCharge.value);
  }

  /** complex_tiered: the first covering tier with a flat price or a per-kg rate, rounded as configured. */
  method ComplexTieredPrice(weight: real, rounding: Option<Rounding>, tiers: Option<seq<PriceTier>>) returns (price: real)
    ensures price == ModelPrice(weight, ComplexTiered(rounding, tiers))
  {
    if tiers.None? {
      return NotApplicable;
    }
    var ts := tiers.value;
    var i := 0;
    while i < |ts|
      invariant 0 <= i <= |ts|
      invariant forall j :: 0 <= j < i ==> !(Covers(ts[j], weight) && HasRate(ts[j]))
    {
      if Covers(ts[i], weight) {
        if Truthy(ts[i].flatPrice) {
          FindIndexFirst(ts, t => Covers(t, weight) && HasRate(t), i);
          return ApplyRounding(ts[i].flatPrice.value, rounding);
        } else if Truthy(ts[i].pricePerKg) {
          FindIndexFirst(ts, t => Covers(t, weight) && HasRate(t), i);
          var p := if Truthy(ts[i].baseFee) then ts[i].baseFee.value + weight * ts[i].pricePerKg.value
                   else weight * ts[i].pricePerKg.value;
          return ApplyRounding(p, rounding);
        }
      }
      i := i + 1;
    }
    return NotApplicable;
  }

  /** first_plus_tiered_flat_rate: the first price up to the first weight, then the first covering tier's flat price. */
  method FirstPlusTieredFlatRatePrice(weight: real, firstKg: real, firstPrice: Option<real>, tiers: Option<seq<PriceTier>>)
    returns (price: real)
    ensures price == ModelPrice(weight, FirstPlusTieredFlatRate(firstKg, firstPrice, tiers))
  {
    if !Truthy(firstPrice) || tiers.None? {
      return NotApplicable;
    }
    if weight <= firstKg {
      return firstPrice.value;
    }
    var ts := tiers.value;
    var i := 0;
    while i < |ts|
      invariant 0 <= i <= |ts|
      invariant forall j :: 0 <= j < i ==> !(Covers(ts[j], weight) && Truthy(ts[j].flatPrice))
    {
      if Covers(ts[i], weight) {
        if Truthy(ts[i].flatPrice) {
          FindIndexFirst(ts, t => Covers(t, weight) && Truthy(t.flatPrice), i);
          return ts[i].flatPrice.value;
        }
      }
      i := i + 1;
    }
    return NotApplicable;
  }

  /** A positive weight and a rule naming a known model type: the price is that model's price. */
  lemma RulePriceOfKind(weight: real, rule: PriceRule, kind: ModelKind)
    requires weight > 0.0 && rule.modelType == Some(KindTag(kind))
    ensures RulePrice(weight, rule) == Ok(ModelPrice(weight, ModelOf(kind, rule)))
  {
    ModelKindRoundTrip(kind);
  }

  /** An absent or zero FirstWeightKg prices exactly like FirstWeightKg = 1. */
  lemma FirstWeightKgDefaultsToOne(weight: real, rule: PriceRule)
    requires !Truthy(rule.firstWeightKg)
    ensures RulePrice(weight, rule) == RulePrice(weight, rule.(firstWeightKg := Some(1.0)))
  {
  }

  /** first_additional: an absent or zero first price or per-kg price makes the rule not applicable. */
  lemma FirstAdditionalGuard(weight: real, rule: PriceRule)
    requires weight > 0.0 && rule.modelType == Some(FirstAdditionalTag)
    requires !Truthy(rule.firstWeightPrice) || !Truthy(rule.additionalWeightPricePerKg)
    ensures RulePrice(weight, rule) == Ok(NotApplicable)
  {
    RulePriceOfKind(weight, rule, FirstAdditionalKind);
  }

  /** first_additional with the per_kg_only exception reached: weight times the per-kg price, whatever the first price. */
  lemma FirstAdditionalException(weight: real, rule: PriceRule, otherFirstPrice: real)
    requires weight > 0.0 && rule.modelType == Some(FirstAdditionalTag)
    requires Truthy(rule.firstWeightPrice) && Truthy(rule.additionalWeightPricePerKg)
    requires ExceptionApplies(weight, rule.exceptionThresholdKg, rule.exceptionFormula)
    requires otherFirstPrice != 0.0
    ensures RulePrice(weight, rule) == Ok(weight * rule.additionalWeightPricePerKg.value)
    ensures RulePrice(weight, rule.(firstWeightPrice := Some(otherFirstPrice))) == RulePrice(weight, rule)
  {
    var other := rule.(firstWeightPrice := Some(otherFirstPrice));
    RulePriceOfKind(weight, rule, FirstAdditionalKind);
    RulePriceOfKind(weight, other, FirstAdditionalKind);
    var firstKg := OrElse(rule.firstWeightKg, 1.0);
    var m := FirstAdditional(firstKg, rule.firstWeightPrice,
      rule.additionalWeightPricePerKg, rule.exceptionThresholdKg, rule.exceptionFormula);
    var m' := FirstAdditional(firstKg, other.firstWeightPrice,
      rule.additionalWeightPricePerKg, rule.exceptionThresholdKg, rule.exceptionFormula);
    assert ModelOf(FirstAdditionalKind, rule) == m;
    assert ModelOf(FirstAdditionalKind, other) == m';
    assert ModelPrice(weight, m) == weight * rule.additionalWeightPricePerKg.value;
    assert ModelPrice(weight, m') == weight * rule.additionalWeightPricePerKg.value;
  }

  /**
   * first_additional without the exception: the first price up to the first
   * weight, then one per-kg charge for every started kilogram beyond it.
   */
  lemma FirstAdditionalStandard(weight: real, rule: PriceRule)
    requires weight > 0.0 && rule.modelType == Some(FirstAdditionalTag)
    requires Truthy(rule.firstWeightPrice) && Truthy(rule.additionalWeightPricePerKg)
    requires !ExceptionApplies(weight, rule.exceptionThresholdKg, rule.exceptionFormula)
    ensures var firstKg := OrElse(rule.firstWeightKg, 1.0);
            var firstPrice := rule.firstWeightPrice.value;
            var perKg := rule.additionalWeightPricePerKg.value;
            && (weight <= firstKg ==> RulePrice(weight, rule) == Ok(firstPrice))
            && (weight > firstKg ==> RulePrice(weight, rule) == Ok(firstPrice + Ceil(weight - firstKg) as real * perKg))
            && (weight > firstKg ==> Ceil(weight - firstKg) >= 1)
            && (weight > firstKg && perKg > 0.0 ==> RulePrice(weight, rule).value > firstPrice)
  {
    RulePriceOfKind(weight, rule, FirstAdditionalKind);
    var firstKg := OrElse(rule.firstWeightKg, 1.0);
    var m := FirstAdditional(firstKg, rule.firstWeightPrice,
      rule.additionalWeightPricePerKg, rule.exceptionThresholdKg, rule.exceptionFormula);
    assert ModelOf(FirstAdditionalKind, rule) == m;
    if weight > firstKg {
      assert ModelPrice(weight, m) ==
        rule.firstWeightPrice.value + Ceil(weight - firstKg) as real * rule.additionalWeightPricePerKg.value;
      assert Ceil(weight - firstKg) >= 1;
    }
  }

  /** first_additional without the exception never charges a heavier parcel less, when the per-kg price is positive. */
  lemma FirstAdditionalMonotone(w1: real, w2: real, rule: PriceRule)
    requires 0.0 < w1 <= w2 && rule.modelType == Some(FirstAdditionalTag)
    requires Truthy(rule.firstWeightPrice) && Truthy(rule.additionalWeightPricePerKg)
    requires rule.additionalWeightPricePerKg.value > 0.0
    requires !ExceptionApplies(w1, rule.exceptionThresholdKg, rule.exceptionFormula)
    requires !ExceptionApplies(w2, rule.exceptionThresholdKg, rule.exceptionFormula)
    ensures RulePrice(w1, rule).value <= RulePrice(w2, rule).value
  {
    FirstAdditionalStandard(w1, rule);
    FirstAdditionalStandard(w2, rule);
    var firstKg := OrElse(rule.firstWeightKg, 1.0);
    var perKg := rule.additionalWeightPricePerKg.value;
    if w1 > firstKg {
      var c1, c2 := Ceil(w1 - firstKg), Ceil(w2 - firstKg);
      assert c1 <= c2;
      assert (c2 - c1) as real * perKg >= 0.0;
    }
  }

  /** tiered_minimum_charge: absent tiers, or an absent or zero minimum charge, make the rule not applicable. */
  lemma TieredMinimumChargeGuard(weight: real, rule: PriceRule)
    requires weight > 0.0 && rule.modelType == Some(TieredMinimumChargeTag)
    requires rule.tiers.None? || !Truthy(rule.minimumCharge)
    ensures RulePrice(weight, rule) == Ok(NotApplicable)
  {
    RulePriceOfKind(weight, rule, TieredMinimumChargeKind);
  }

  /**
   * tiered_minimum_charge: the first band in array order that covers the
   * weight is used, the result never falls below the minimum charge, and a
   * band without flat or per-kg price charges a positive minimum exactly.
   */
  lemma TieredMinimumChargeFirstCovering(weight: real, rule: PriceRule, k: nat)
    requires weight > 0.0 && rule.modelType == Some(TieredMinimumChargeTag)
    requires rule.tiers.Some? && Truthy(rule.minimumCharge)
    requires k < |rule.tiers.value| && Covers(rule.tiers.value[k], weight)
    requires forall j :: 0 <= j < k ==> !Covers(rule.tiers.value[j], weight)
    ensures RulePrice(weight, rule) == Ok(Max(TierCharge(rule.tiers.value[k], weight), rule.minimumCharge.value))
    ensures RulePrice(weight, rule).value >= rule.minimumCharge.value
    ensures !HasRate(rule.tiers.value[k]) && rule.minimumCharge.value > 0.0 ==>
              RulePrice(weight, rule).value == rule.minimumCharge.value
  {
    RulePriceOfKind(weight, rule, TieredMinimumChargeKind);
    FindIndexFirst(rule.tiers.value, t => Covers(t, weight), k);
  }

  /** tiered_minimum_charge: no covering band makes the rule not applicable. */
  lemma TieredMinimumChargeNoCovering(weight: real, rule: PriceRule)
    requires weight > 0.0 && rule.modelType == Some(TieredMinimumChargeTag)
    requires rule.tiers.Some? && forall j :: 0 <= j < |rule.tiers.value| ==> !Covers(rule.tiers.value[j], weight)
    ensures RulePrice(weight, rule) == Ok(NotApplicable)
  {
    RulePriceOfKind(weight, rule, TieredMinimumChargeKind);
  }

  /**
   * complex_tiered built from a rule: covering bands without a truthy flat or
   * per-kg price are skipped, the base fee is added only when truthy, and the
   * price is not rounded.
   */
  lemma ComplexTieredFirstRated(weight: real, rule: PriceRule, k: nat)
    requires weight > 0.0 && rule.modelType == Some(ComplexTieredTag) && rule.tiers.Some?
    requires k < |rule.tiers.value| && Covers(rule.tiers.value[k], weight) && HasRate(rule.tiers.value[k])
    requires forall j :: 0 <= j < k ==> !(Covers(rule.tiers.value[j], weight) && HasRate(rule.tiers.value[j]))
    ensures Truthy(rule.tiers.value[k].flatPrice) ==> RulePrice(weight, rule) == Ok(rule.tiers.value[k].flatPrice.value)
    ensures !Truthy(rule.tiers.value[k].flatPrice) ==>
              RulePrice(weight, rule) == Ok(OrElse(rule.tiers.value[k].baseFee, 0.0) + weight * rule.tiers.value[k].pricePerKg.value)
  {
    RulePriceOfKind(weight, rule, ComplexTieredKind);
    var m := ComplexTiered(None, rule.tiers);
    assert ModelOf(ComplexTieredKind, rule) == m;
    FindIndexFirst(rule.tiers.value, t => Covers(t, weight) && HasRate(t), k);
    var tier := rule.tiers.value[k];
    assert RulePrice(weight, rule) == Ok(ComplexCharge(tier, weight));
    if !Truthy(tier.flatPrice) {
      var charge := OrElse(tier.baseFee, 0.0) + weight * tier.pricePerKg.value;
      assert ComplexCharge(tier, weight) == charge;
      var e := OrElse(rule.tiers.value[k].baseFee, 0.0) + weight * rule.tiers.value[k].pricePerKg.value;
      assert e == charge;
    }
  }

  /** complex_tiered: absent tiers or no usable covering band make the rule not applicable. */
  lemma ComplexTieredNoRatedTier(weight: real, rule: PriceRule)
    requires weight > 0.0 && rule.modelType == Some(ComplexTieredTag)
    requires rule.tiers.Some? ==>
               forall j :: 0 <= j < |rule.tiers.value| ==> !(Covers(rule.tiers.value[j], weight) && HasRate(rule.tiers.value[j]))
    ensures RulePrice(weight, rule) == Ok(NotApplicable)
  {
    RulePriceOfKind(weight, rule, ComplexTieredKind);
  }

  /** A complex_tiered model that does carry a rounding mode rounds the band's charge up. */
  lemma ComplexTieredRounded(weight: real, rounding: Rounding, tiers: seq<PriceTier>, k: nat)
    requires rounding != NoRounding
    requires k < |tiers| && Covers(tiers[k], weight) && HasRate(tiers[k])
    requires forall j :: 0 <= j < k ==> !(Covers(tiers[j], weight) && HasRate(tiers[j]))
    ensures var p := ModelPrice(weight, ComplexTiered(Some(rounding), Some(tiers)));
            ComplexCharge(tiers[k], weight) <= p
            && (rounding == UpToOne ==> IsWhole(p))
            && (rounding == UpToFifth ==> IsFifthMultiple(p))
  {
    FindIndexFirst(tiers, t => Covers(t, weight) && HasRate(t), k);
    if rounding == UpToOne {
      ApplyRoundingUpToOne(ComplexCharge(tiers[k], weight));
    } else {
      ApplyRoundingUpToFifth(ComplexCharge(tiers[k], weight));
    }
  }

  /** first_plus_tiered_flat_rate: an absent or zero first price, or absent tiers, make the rule not applicable. */
  lemma FirstPlusGuard(weight: real, rule: PriceRule)
    requires weight > 0.0 && rule.modelType == Some(FirstPlusTieredFlatRateTag)
    requires !Truthy(rule.firstWeightPrice) || rule.tiers.None?
    ensures RulePrice(weight, rule) == Ok(NotApplicable)
  {
    RulePriceOfKind(weight, rule, FirstPlusTieredFlatRateKind);
  }

  /** first_plus_tiered_flat_rate: the first price up to the first weight. */
  lemma FirstPlusWithinFirstWeight(weight: real, rule: PriceRule)
    requires weight > 0.0 && rule.modelType == Some(FirstPlusTieredFlatRateTag)
    requires Truthy(rule.firstWeightPrice) && rule.tiers.Some?
    requires weight <= OrElse(rule.firstWeightKg, 1.0)
    ensures RulePrice(weight, rule) == Ok(rule.firstWeightPrice.value)
  {
    RulePriceOfKind(weight, rule, FirstPlusTieredFlatRateKind);
  }

  /**
   * first_plus_tiered_flat_rate beyond the first weight: the flat price of the
   * first band, keyed by total weight, that covers the weight and has one.
   */
  lemma FirstPlusFirstFlatTier(weight: real, rule: PriceRule, k: nat)
    requires weight > 0.0 && rule.modelType == Some(FirstPlusTieredFlatRateTag)
    requires Truthy(rule.firstWeightPrice) && rule.tiers.Some?
    requires weight > OrElse(rule.firstWeightKg, 1.0)
    requires k < |rule.tiers.value| && Covers(rule.tiers.value[k], weight) && Truthy(rule.tiers.value[k].flatPrice)
    requires forall j :: 0 <= j < k ==> !(Covers(rule.tiers.value[j], weight) && Truthy(rule.tiers.value[j].flatPrice))
    ensures RulePrice(weight, rule) == Ok(rule.tiers.value[k].flatPrice.value)
  {
    RulePriceOfKind(weight, rule, FirstPlusTieredFlatRateKind);
    FindIndexFirst(rule.tiers.value, t => Covers(t, weight) && Truthy(t.flatPrice), k);
  }

  /** first_plus_tiered_flat_rate beyond the first weight with no covering flat band: not applicable. */
  lemma FirstPlusNoFlatTier(weight: real, rule: PriceRule)
    requires weight > 0.0 && rule.modelType == Some(FirstPlusTieredFlatRateTag)
    requires Truthy(rule.firstWeightPrice) && rule.tiers.Some?
    requires weight > OrElse(rule.firstWeightKg, 1.0)
    requires forall j :: 0 <= j < |rule.tiers.value| ==> !(Covers(rule.tiers.value[j], weight) && Truthy(rule.tiers.value[j].flatPrice))
    ensures RulePrice(weight, rule) == Ok(NotApplicable)
  {
    RulePriceOfKind(weight, rule, FirstPlusTieredFlatRateKind);
  }

  /** `getPriceDifference`: the percentage by which price1 differs from price2, 0 when price2 is 0. */
  function PriceDifference(price1: real, price2: real): (r: real)
    ensures price2 == 0.0 ==> r == 0.0
    ensures price2 != 0.0 ==> price2 + price2 * r / 100.0 == price1
    ensures price2 > 0.0 ==> (r > 0.0 <==> price1 > price2) && (r == 0.0 <==> price1 == price2)
  {
    if price2 == 0.0 then 0.0 else ((price1 - price2) / price2) * 100.0
  }
}
