/**
 * The profit calculators and their saved history. "N-point" pricing finds the
 * selling price at which the profit is a given percentage of the price;
 * "profit-point" finds that percentage from a cost and a price. The history
 * keeps the five most recent distinct calculations, newest first.
 */
module ProfitCalculator {
  import opened Wrappers
  import opened JsNumber
  import opened JsArray
  import opened Types

  /** `Math.round(x * 100) / 100`: rounded to cents, halves upwards. */
  function RoundCents(x: real): (r: real)
    ensures x - 0.005 < r <= x + 0.005
    ensures x >= 0.0 ==> r >= 0.0
    ensures (r * 100.0).Floor as real == r * 100.0
  {
    Round(x * 100.0) as real / 100.0
  }

  // ------------------------------------------------------------ n-point

  /** The price at which `rate` percent of the price is profit: cost / (1 - rate/100). */
  function NPointRawPrice(cost: real, rate: real): (price: real)
    requires rate < 100.0
    ensures price * (1.0 - rate / 100.0) == cost
  {
    cost / (1.0 - rate / 100.0)
  }

  /** `calculateNPointPrice`: null unless the cost is positive and the rate is in [0, 100). */
  function NPointPrice(inputs: NPointInputs): (r: Option<NPointOutputs>)
    ensures r.None? <==> inputs.cost <= 0.0 || inputs.profitRate < 0.0 || inputs.profitRate >= 100.0
  {
    if inputs.cost <= 0.0 || inputs.profitRate < 0.0 || inputs.profitRate >= 100.0 then None
    else
      var price := NPointRawPrice(inputs.cost, inputs.profitRate);
      var profit := price - inputs.cost;
      Some(NPointOutputs(RoundCents(profit), RoundCents(price), 0.0))
  }

  /**
   * For valid inputs the unrounded price is at least the cost and its profit
   * is the requested percentage of it; the outputs are those amounts to the
   * cent, so the profit shown is never negative, and the taxed price is 0.
   */
  lemma NPointPriceMeaning(inputs: NPointInputs)
    requires NPointPrice(inputs).Some?
    ensures var price := NPointRawPrice(inputs.cost, inputs.profitRate);
            var out := NPointPrice(inputs).value;
            price >= inputs.cost
            && price - inputs.cost == price * inputs.profitRate / 100.0
            && price - 0.005 < out.price <= price + 0.005
            && price - inputs.cost - 0.005 < out.profit <= price - inputs.cost + 0.005
            && out.profit >= 0.0
            && out.taxPrice == 0.0
  {
    var cost, rate := inputs.cost, inputs.profitRate;
    var price := NPointRawPrice(cost, rate);
    var k := 1.0 - rate / 100.0;
    assert 0.0 < k <= 1.0;
    assert price * k == cost;
    PositiveFactor(price, k, cost);
    assert price >= cost by {
      assert price * k <= price * 1.0;
    }
  }

  /** A factor of a positive product with a positive other factor is positive. */
  lemma PositiveFactor(x: real, y: real, p: real)
    requires x * y == p && y > 0.0 && p > 0.0
    ensures x > 0.0
  {
  }

  // ------------------------------------------------------- profit-point

  /** The share of the price that is profit, in percent: (price - cost) / price × 100. */
  function ProfitRawRate(cost: real, price: real): (rate: real)
    requires price != 0.0
    ensures rate * price == (price - cost) * 100.0
  {
    ((price - cost) / price) * 100.0
  }

  /** `calculateProfitPoint`: null unless both the cost and the price are positive. */
  function ProfitPoint(inputs: ProfitPointInputs): (r: Option<ProfitPointOutputs>)
    ensures r.None? <==> inputs.cost <= 0.0 || inputs.price <= 0.0
  {
    if inputs.cost <= 0.0 || inputs.price <= 0.0 then None
    else Some(ProfitPointOutputs(RoundCents(ProfitRawRate(inputs.cost, inputs.price))))
  }

  /**
   * For valid inputs the unrounded rate is below 100 (the cost is positive),
   * and the output is that rate to the cent, so never above 100.
   */
  lemma ProfitPointMeaning(inputs: ProfitPointInputs)
    requires ProfitPoint(inputs).Some?
    ensures var rate := ProfitRawRate(inputs.cost, inputs.price);
            var out := ProfitPoint(inputs).value;
            rate < 100.0 && rate - 0.005 < out.profitRate <= rate + 0.005 && out.profitRate <= 100.0
  {
    var rate := ProfitRawRate(inputs.cost, inputs.price);
    assert rate * inputs.price == (inputs.price - inputs.cost) * 100.0;
    assert (100.0 - rate) * inputs.price == inputs.cost * 100.0;
    PositiveFactor(100.0 - rate, inputs.price, inputs.cost * 100.0);
    assert Round(rate * 100.0) <= 10000;
  }

  /** The two calculators undo each other: the rate of the n-point price is the rate asked for. */
  lemma NPointThenProfitPoint(cost: real, rate: real)
    requires cost > 0.0 && 0.0 <= rate < 100.0
    ensures NPointRawPrice(cost, rate) > 0.0
    ensures ProfitRawRate(cost, NPointRawPrice(cost, rate)) == rate
  {
    var price := NPointRawPrice(cost, rate);
    var k := 1.0 - rate / 100.0;
    assert price * k == cost;
    PositiveFactor(price, k, cost);
    var back := ProfitRawRate(cost, price);
    assert back * price == (price - cost) * 100.0;
    assert (price - cost) * 100.0 == rate * price;
    assert (back - rate) * price == 0.0;
  }

  /** ... and the n-point price of the rate a price gives is that price. */
  lemma ProfitPointThenNPoint(cost: real, price: real)
    requires cost > 0.0 && price > 0.0
    ensures ProfitRawRate(cost, price) < 100.0
    ensures NPointRawPrice(cost, ProfitRawRate(cost, price)) == price
  {
    ProfitPointMeaning(ProfitPointInputs(cost, price));
    var rate := ProfitRawRate(cost, price);
    var back := NPointRawPrice(cost, rate);
    var k := 1.0 - rate / 100.0;
    assert back * k == cost;
    assert price * k == cost by {
      assert rate * price == (price - cost) * 100.0;
    }
    assert (back - price) * k == 0.0;
    assert k != 0.0;
  }

  // ------------------------------------------------------------ history

  /** The most calculations the history keeps. */
  const HistoryLimit: nat := 5

  /** An input of a record by name; an absent one reads as undefined. */
  function InputOf(record: CalculationRecord, name: string): Option<real> {
    if name in record.inputs then Some(record.inputs[name]) else None
  }

  /**
   * The duplicate test of `saveCalculationRecord`: the same kind, and the same
   * cost and rate for n-point, or the same cost and price for profit-point.
   */
  predicate SameCalculation(existing: CalculationRecord, record: CalculationRecord) {
    existing.kind == record.kind
    && InputOf(existing, "cost") == InputOf(record, "cost")
    && match record.kind
       case NPoint => InputOf(existing, "profitRate") == InputOf(record, "profitRate")
       case ProfitPoint => InputOf(existing, "price") == InputOf(record, "price")
  }

  /** `existingRecords.some(...)`. */
  predicate IsDuplicate(history: seq<CalculationRecord>, record: CalculationRecord) {
    exists i :: 0 <= i < |history| && SameCalculation(history[i], record)
  }

  /** The history after saving: unchanged for a duplicate, otherwise the record first and the five newest kept. */
  function Saved(history: seq<CalculationRecord>, record: CalculationRecord): seq<CalculationRecord> {
    if IsDuplicate(history, record) then history else Take([record] + history, HistoryLimit)
  }

  /**
   * A new calculation goes first, followed by the older ones in their order,
   * at most five in all; a duplicate leaves the history as it was.
   */
  lemma SavedShape(history: seq<CalculationRecord>, record: CalculationRecord)
    ensures IsDuplicate(history, record) ==> Saved(history, record) == history
    ensures !IsDuplicate(history, record) ==>
              var s := Saved(history, record);
              1 <= |s| <= HistoryLimit && s[0] == record && s[1..] == history[..|s| - 1]
              && |s| == (if |history| < HistoryLimit then |history| + 1 else HistoryLimit)
  {
    if !IsDuplicate(history, record) {
      var s := Saved(history, record);
      assert s == ([record] + history)[..|s|];
      assert s[1..] == history[..|s| - 1];
    }
  }

  /** Saving the same calculation twice is saving it once. */
  lemma SaveIdempotent(history: seq<CalculationRecord>, record: CalculationRecord)
    ensures Saved(Saved(history, record), record) == Saved(history, record)
  {
    SavedShape(history, record);
    var s := Saved(history, record);
    if !IsDuplicate(history, record) {
      assert SameCalculation(s[0], record);
    }
  }

  /** The calculation history, held in memory. */
  class CalculationHistory {
    var records: seq<CalculationRecord>

    /** At most five calculations are kept. */
    ghost predicate Valid()
      reads this
    {
      |records| <= HistoryLimit
    }

    /** An empty history, as when nothing was stored. */
    constructor ()
      ensures records == [] && Valid()
    {
      records := [];
    }

    /** `getCalculationHistory`. */
    method Get() returns (r: seq<CalculationRecord>)
      ensures r == records
    {
      r := records;
    }

    /** `saveCalculationRecord`. */
    method Save(record: CalculationRecord)
      modifies this
      ensures records == Saved(old(records), record)
      ensures old(Valid()) ==> Valid()
    {
      var isDuplicate := false;
      for i := 0 to |records|
        invariant isDuplicate <==> exists j :: 0 <= j < i && SameCalculation(records[j], record)
      {
        if SameCalculation(records[i], record) {
          isDuplicate := true;
        }
      }
      if !isDuplicate {
        records := Take([record] + records, HistoryLimit);
      }
    }

    /** `clearCalculationHistory`. */
    method Clear()
      modifies this
      ensures records == [] && Valid()
    {
      records := [];
    }
  }
}
