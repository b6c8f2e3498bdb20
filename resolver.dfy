/** getCurrentStockPrice: the price of a symbol from Financial Modeling Prep, else from
    Twelve Data, else from a fixed table of mock prices. The HTTP responses are inputs. */
module PriceResolver {
  import opened Wrappers
  import opened Extension

  /** What one provider request came to.
      Threw: fetch rejected or the body was not JSON; the handler jumps to the mock table.
      NoPrice: the response was not ok, or its body had no price.
      Quoted(v): the body had a price field. For Financial Modeling Prep it is the number
      v, which the code accepts only when it is truthy (v != 0). For Twelve Data it is a
      non-empty text that parseFloat reads as v, which the code returns whatever v is. */
  datatype SourceOutcome = Threw | NoPrice | Quoted(value: real)

  /** The outcomes of the two quote requests for one symbol. */
  datatype Quotes = Quotes(fmp: SourceOutcome, twelveData: SourceOutcome)

  /** Where a resolved price came from. */
  datatype Source = Fmp | TwelveData | MockTable

  /** A resolved price, its source, and the requests made to get it, in order. */
  datatype Resolution = Resolution(price: real, source: Source, calls: seq<Call>)

  /** The last-resort prices for a few well-known tickers. */
  const MockPrices: map<string, real> :=
    map["TSLA" := 426.50, "AAPL" := 175.20, "GOOGL" := 140.30, "MSFT" := 415.80, "AMZN" := 145.60]

  /** The price used for a symbol the mock table does not list. */
  const DefaultPrice: real := 100.0

  /** `mockPrices[symbol] || 100.00`. Every table entry is truthy, so the default is used
      exactly for the symbols the table does not list, and the result is never 0. */
  function MockPrice(symbol: string): (p: real)
    ensures p > 0.0
    ensures symbol in MockPrices ==> p == MockPrices[symbol]
    ensures symbol !in MockPrices ==> p == DefaultPrice
  {
    if symbol in MockPrices && MockPrices[symbol] != 0.0 then MockPrices[symbol] else DefaultPrice
  }

  /** The resolver chain as the code runs it. A throw at either request lands in the
      catch block, which looks up the mock table; in particular a throw from the first
      provider means the second is never asked. */
  function Resolve(symbol: string, q: Quotes): Resolution
  {
    if q.fmp.Threw? then
      Resolution(MockPrice(symbol), MockTable, [FmpQuote(symbol)])
    else if q.fmp.Quoted? && q.fmp.value != 0.0 then
      Resolution(q.fmp.value, Fmp, [FmpQuote(symbol)])
    else
      var calls := [FmpQuote(symbol), TwelveDataQuote(symbol)];
      if q.twelveData.Quoted? then Resolution(q.twelveData.value, TwelveData, calls)
      else Resolution(MockPrice(symbol), MockTable, calls)
  }

  /** Financial Modeling Prep is always asked first; Twelve Data is asked exactly when the
      first request neither threw nor gave a truthy price. */
  lemma ResolveRequests(symbol: string, q: Quotes)
    ensures var r := Resolve(symbol, q);
      && 1 <= |r.calls| <= 2
      && r.calls[0] == FmpQuote(symbol)
      && (TwelveDataQuote(symbol) in r.calls <==> !q.fmp.Threw? && !(q.fmp.Quoted? && q.fmp.value != 0.0))
  {
  }

  /** After the first provider throws, the second one's outcome does not matter at all. */
  lemma ThrowSkipsTwelveData(symbol: string, t1: SourceOutcome, t2: SourceOutcome)
    ensures Resolve(symbol, Quotes(Threw, t1)) == Resolve(symbol, Quotes(Threw, t2))
    ensures Resolve(symbol, Quotes(Threw, t1)).source == MockTable
  {
  }

  /** The resolver always yields a price: a falsy quote from the first provider is never
      used, the mock table never yields 0, so 0 can only come from a Twelve Data text. */
  lemma ResolveZeroOnlyFromTwelveData(symbol: string, q: Quotes)
    ensures Resolve(symbol, q).price == 0.0 ==> Resolve(symbol, q).source == TwelveData
    ensures Resolve(symbol, q).source == MockTable ==> Resolve(symbol, q).price == MockPrice(symbol)
  {
  }

  /** A fall-through chain: an ordered list of sources, each offering a price or none;
      the first offer wins, and the fallback ends the chain. */
  function FirstPrice(candidates: seq<Option<real>>, fallback: real): (p: real)
    ensures (forall i :: 0 <= i < |candidates| ==> candidates[i].None?) ==> p == fallback
    ensures (exists i :: 0 <= i < |candidates| && candidates[i].Some?) ==>
      exists i :: 0 <= i < |candidates| && candidates[i] == Some(p) &&
        forall j :: 0 <= j < i ==> candidates[j].None?
  {
    if candidates == [] then fallback
    else if candidates[0].Some? then candidates[0].value
    else
      var p := FirstPrice(candidates[1..], fallback);
      assert forall k :: 0 <= k < |candidates| - 1 ==> candidates[1..][k] == candidates[k + 1];
      p
  }

  /** What a provider offers to the fall-through chain: a thrown error counts as no price. */
  function Candidate(o: SourceOutcome, acceptZero: bool): Option<real>
  {
    if o.Quoted? && (acceptZero || o.value != 0.0) then Some(o.value) else None
  }

  /** The price of the fall-through chain, in which every failure passes to the next
      source: the first provider, then Twelve Data, then the mock table. */
  function FallThroughPrice(symbol: string, q: Quotes): real
  {
    FirstPrice([Candidate(q.fmp, false), Candidate(q.twelveData, true)], MockPrice(symbol))
  }

  /** The code agrees with the fall-through chain except possibly in one case: the first
      provider throws and Twelve Data would have quoted. Then the code takes the mock price
      while the fall-through chain takes the Twelve Data price, so the two differ whenever
      those prices do. */
  lemma ResolveVersusFallThrough(symbol: string, q: Quotes)
    ensures !(q.fmp.Threw? && q.twelveData.Quoted?) ==>
      Resolve(symbol, q).price == FallThroughPrice(symbol, q)
    ensures q.fmp.Threw? && q.twelveData.Quoted? ==>
      Resolve(symbol, q).price == MockPrice(symbol) &&
      FallThroughPrice(symbol, q) == q.twelveData.value
  {
    FirstOfTwo(Candidate(q.fmp, false), Candidate(q.twelveData, true), MockPrice(symbol));
  }

  /** A two-provider chain takes the first price offered, else the second, else the fallback. */
  lemma FirstOfTwo(first: Option<real>, second: Option<real>, fallback: real)
    ensures FirstPrice([first, second], fallback) ==
      if first.Some? then first.value else if second.Some? then second.value else fallback
  {
    var cs := [first, second];
    assert cs[1..] == [second];
    assert cs[1..][1..] == [];
  }
}
