/** The record shapes the library passes between its parts. Numbers are reals; optional fields are `Option`s. */
module Types {
  import opened Wrappers

  /** What the address parser extracts from a free-text address. */
  datatype ParsedAddress = ParsedAddress(province: string, city: string, name: Option<string>, phone: Option<string>, address: string)

  /** One carrier's quote, as shown in a price list. */
  datatype PriceResult = PriceResult(company: string, price: real, currency: string, leadTime: Option<string>, isCheapest: bool, note: Option<string>)

  /** A province with the cities listed under it. */
  datatype ProvinceCity = ProvinceCity(province: string, cities: seq<string>)

  /** One hit of the province/city search. */
  datatype SearchResult = SearchResult(province: string, city: string, fullName: string)

  /** The profit calculators' inputs and outputs. */
  datatype NPointInputs = NPointInputs(cost: real, profitRate: real, taxRate: real)
  datatype NPointOutputs = NPointOutputs(profit: real, price: real, taxPrice: real)
  datatype ProfitPointInputs = ProfitPointInputs(cost: real, price: real)
  datatype ProfitPointOutputs = ProfitPointOutputs(profitRate: real)

  /** The two kinds of calculation, `'n-point'` and `'profit-point'`. */
  datatype CalculationKind = NPoint | ProfitPoint

  /** One saved calculation: named inputs and outputs, and the time it was saved (milliseconds). */
  datatype CalculationRecord = CalculationRecord(id: string, kind: CalculationKind, inputs: map<string, real>, outputs: map<string, real>, timestamp: int)
}
