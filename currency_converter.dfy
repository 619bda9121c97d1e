/** Conversion of prices to US dollars (`scripts/utils/currency_converter.py`).
    The exchange-rate service is reached over HTTP in the source; here its
    answer is a parameter, and the clock is an integer count of seconds. */
module CurrencyConverter {

  import opened Wrappers
  import opened PyJson

  /** One hour, the lifetime of a cached rate table. */
  const CacheDuration: int := 3600

  /** The built-in rates to US dollars, used when the service cannot be read. */
  const FallbackRates: map<string, real> :=
    map["EUR" := 1.10, "GBP" := 1.25, "JPY" := 0.0067, "CAD" := 0.74,
        "AUD" := 0.65, "CHF" := 1.05, "USD" := 1.0]

  /** What the request to the exchange-rate service produced: it raised, or
      it answered with a status and a body that is JSON (`Some`) or not. */
  datatype RateResponse = NoResponse | Response(status: int, body: Option<Json>)

  predicate AllNumeric(quoted: map<string, Json>) {
    forall c :: c in quoted ==> IsNumber(quoted[c])
  }

  /** The rates to dollars obtained by inverting the quoted dollar rates of
      the currencies in `seen`; a non-positive quote is dropped. */
  function Inverted(quoted: map<string, Json>, seen: set<string>): (t: map<string, real>)
    requires AllNumeric(quoted)
    requires seen <= quoted.Keys
    ensures forall c :: c in t <==> c in seen && NumValue(quoted[c]) > 0.0
    ensures forall c :: c in t ==> t[c] > 0.0 && t[c] * NumValue(quoted[c]) == 1.0
  {
    map c | c in seen && NumValue(quoted[c]) > 0.0 :: 1.0 / NumValue(quoted[c])
  }

  /** The table a response yields, or `None` when the source would fall back:
      a status other than 200, a body that is not JSON, a body or `rates`
      that is not a dict, or a quote that cannot be compared with 0. */
  function FetchedTable(response: RateResponse): Option<map<string, real>> {
    if !response.Response? || response.status != 200 || response.body.None? then None
    else
      var data := response.body.value;
      match Get(data, "rates", JObj(map[]))
      case Err(_) => None
      case Ok(quotes) =>
        if quotes.JObj? && AllNumeric(quotes.fields)
        then Some(Inverted(quotes.fields, quotes.fields.Keys)["USD" := 1.0])
        else None
  }

  /** Every table `get_exchange_rates` can hand out holds only positive rates,
      and the dollar's own rate is always 1. */
  lemma TablesArePositive(response: RateResponse)
    ensures var t := if FetchedTable(response).Some? then FetchedTable(response).value else FallbackRates;
      "USD" in t && t["USD"] == 1.0 && forall c :: c in t ==> t[c] > 0.0
  {
  }

  /** A fetched table maps each positively quoted currency to the inverse
      of its quote, drops the others, and always holds the dollar at 1. */
  lemma FetchedTableInvertsQuotes(data: map<string, Json>, quotes: map<string, Json>, c: string)
    requires "rates" in data && AllNumeric(quotes)
    requires data["rates"] == JObj(quotes)
    ensures var t := FetchedTable(Response(200, Some(JObj(data)))).value;
      && (c != "USD" ==> (c in t <==> c in quotes && NumValue(quotes[c]) > 0.0))
      && (c != "USD" && c in t ==> t[c] * NumValue(quotes[c]) == 1.0)
      && t["USD"] == 1.0
  {
  }

  /** The module-level rate cache (`_rate_cache`, `_cache_expiry`). */
  class RateCache {
    var rates: map<string, real>
    var expiry: Option<int>

    constructor ()
      ensures rates == map[] && expiry == None
    {
      rates := map[];
      expiry := None;
    }

    /** The cache answers without a fetch: an expiry is set, it lies in the
        future, and the table is not empty. */
    predicate Fresh(now: int)
      reads this
    {
      expiry.Some? && now < expiry.value && rates != map[]
    }

    /** `get_exchange_rates`. */
    method GetExchangeRates(now: int, response: RateResponse) returns (table: map<string, real>)
      modifies this
      ensures old(Fresh(now)) ==> table == old(rates) && rates == old(rates) && expiry == old(expiry)
      ensures !old(Fresh(now)) ==>
        && table == (if FetchedTable(response).Some? then FetchedTable(response).value else FallbackRates)
        && rates == table
        && expiry == Some(now + CacheDuration)
    {
      if Fresh(now) {
        return rates;
      }
      var fetched := FetchRates(response);
      table := if fetched.Some? then fetched.value else FallbackRates;
      rates := table;
      expiry := Some(now + CacheDuration);
    }
  }

  /** The request-and-invert step of `get_exchange_rates`: the loop over the
      quoted rates, abandoned as soon as a quote raises. */
  method FetchRates(response: RateResponse) returns (r: Option<map<string, real>>)
    ensures r == FetchedTable(response)
  {
    if !response.Response? || response.status != 200 || response.body.None? {
      return None;
    }
    var quotes := Get(response.body.value, "rates", JObj(map[]));
    if quotes.Err? || !quotes.value.JObj? {
      return None;
    }
    var quoted := quotes.value.fields;
    var built: map<string, real> := map[];
    var remaining := quoted.Keys;
    while remaining != {}
      invariant remaining <= quoted.Keys
      invariant forall c :: c in quoted.Keys - remaining ==> IsNumber(quoted[c])
      invariant forall c :: c in built <==> c in quoted.Keys - remaining && NumValue(quoted[c]) > 0.0
      invariant forall c :: c in built ==> built[c] == 1.0 / NumValue(quoted[c])
      decreases |remaining|
    {
      var c :| c in remaining;
      if !IsNumber(quoted[c]) {
        return None;
      }
      if NumValue(quoted[c]) > 0.0 {
        built := built[c := 1.0 / NumValue(quoted[c])];
      }
      remaining := remaining - {c};
    }
    assert AllNumeric(quoted);
    assert built == Inverted(quoted, quoted.Keys);
    return Some(built["USD" := 1.0]);
  }

  /** The rate applied to `from`: the table's, else the built-in one, else 1. */
  function RateFor(from: string, rates: map<string, real>): (rate: real)
    ensures from in rates ==> rate == rates[from]
    ensures from !in rates && from in FallbackRates ==> rate == FallbackRates[from]
    ensures from !in rates && from !in FallbackRates ==> rate == 1.0
  {
    if from in rates then rates[from]
    else if from in FallbackRates then FallbackRates[from]
    else 1.0
  }

  /** `convert_currency` against the table `get_exchange_rates` returned.
      Multiplying a non-number raises inside the `try`, which gives back
      the amount as it came. */
  function ConvertCurrency(amount: Json, from: string, to: string, rates: map<string, real>): (r: Json)
    ensures from == to ==> r == amount
    ensures from != to && IsNumber(amount) ==> r == JReal(NumValue(amount) * RateFor(from, rates))
    ensures !IsNumber(amount) ==> r == amount
  {
    if from == to then amount
    else if IsNumber(amount) then JReal(NumValue(amount) * RateFor(from, rates))
    else amount
  }

  /** `convert_to_usd`: conversion to dollars. */
  function ConvertToUsd(amount: Json, currency: string, rates: map<string, real>): (r: Json)
    ensures currency == "USD" || !IsNumber(amount) ==> r == amount
    ensures currency != "USD" && IsNumber(amount) ==> r == JReal(NumValue(amount) * RateFor(currency, rates))
  {
    ConvertCurrency(amount, currency, "USD", rates)
  }

  /** The target currency matters only through the equality shortcut: two
      conversions from the same foreign currency agree. */
  lemma TargetOnlyShortcuts(amount: Json, from: string, to1: string, to2: string, rates: map<string, real>)
    requires from != to1 && from != to2
    ensures ConvertCurrency(amount, from, to1, rates) == ConvertCurrency(amount, from, to2, rates)
  {
  }

  /** Converting an amount quoted at the service's own rate back to dollars
      gives the dollar amount it was quoted from. */
  lemma ConvertUndoesQuote(data: map<string, Json>, quotes: map<string, Json>, c: string, dollars: real)
    requires "rates" in data && AllNumeric(quotes) && data["rates"] == JObj(quotes)
    requires c != "USD" && c in quotes && NumValue(quotes[c]) > 0.0
    ensures var t := FetchedTable(Response(200, Some(JObj(data)))).value;
      ConvertToUsd(JReal(dollars * NumValue(quotes[c])), c, t) == JReal(dollars)
  {
    var t := FetchedTable(Response(200, Some(JObj(data)))).value;
    FetchedTableInvertsQuotes(data, quotes, c);
    ScaleByInverse(dollars, NumValue(quotes[c]), t[c]);
  }

  lemma ScaleByInverse(x: real, q: real, r: real)
    requires r * q == 1.0
    ensures x * q * r == x
  {
    assert x * q * r == x * (r * q);
  }

  /** A dollar amount converted from dollars keeps its value under every
      table the cache can hold. */
  lemma DollarsKeepValue(amount: Json, to: string, response: RateResponse)
    requires IsNumber(amount)
    ensures var t := if FetchedTable(response).Some? then FetchedTable(response).value else FallbackRates;
      IsNumber(ConvertCurrency(amount, "USD", to, t)) &&
      NumValue(ConvertCurrency(amount, "USD", to, t)) == NumValue(amount)
  {
    TablesArePositive(response);
  }
}
