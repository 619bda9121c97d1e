/** The batch orchestrator (`scripts/orchestrator.py`): the Hetzner
    normalise-then-filter pass, per-provider error capture, concatenation of
    the provider results, the summary statistics and the success rule. The
    providers run one after another in submission order; the clock reading
    and the outcome of the Hetzner collector are parameters. */
module Orchestrator {

  import opened Wrappers
  import opened PyJson
  import DataValidator
  import DataNormalizer
  import SeqFilter
  import Tally

  /** The providers, in the order they are registered and submitted. */
  const Providers: seq<string> := ["hetzner", "aws", "azure", "gcp", "oci", "ovh"]

  /** The keys a new-format item gets set or overridden. */
  const Overridden: set<string> := {"provider", "priceUSD_hourly", "priceUSD_monthly", "originalPrice", "regions"}

  /** An item is in the new format when it carries both `platform` and
      `hetzner_metadata`. */
  predicate IsNewFormat(m: map<string, Json>) {
    "platform" in m && "hetzner_metadata" in m
  }

  /** One pass of the loop body of `_normalize_hetzner_data`, before the
      validity check. `Err` is an exception that makes the loop skip the
      item: an item that is not a dict, or a truthy euro price that cannot
      be multiplied. */
  function NormalizeItem(item: Json, now: string): (r: Result<Json>)
    ensures r.Ok? ==> item.JObj? && r.value.JObj?
  {
    if !item.JObj? then
      (if item.JArr? || item.JStr? then Err(AttributeError) else Err(TypeError))
    else
      var m := item.fields;
      if IsNewFormat(m) then
        var eurHourly := Lookup(m, "priceEUR_hourly_net", JInt(0));
        var eurMonthly := Lookup(m, "priceEUR_monthly_net", JInt(0));
        match DataNormalizer.UsdFromEur(eurHourly, SixPlaces)
        case Err(e) => Err(e)
        case Ok(usdHourly) =>
          match DataNormalizer.UsdFromEur(eurMonthly, TwoPlaces)
          case Err(e) => Err(e)
          case Ok(usdMonthly) =>
            Ok(JObj(m + map[
              "provider" := JStr("hetzner"),
              "priceUSD_hourly" := usdHourly,
              "priceUSD_monthly" := usdMonthly,
              "originalPrice" := JObj(map["hourly" := eurHourly, "monthly" := eurMonthly, "currency" := JStr("EUR")]),
              "regions" := Lookup(m, "regions", Lookup(m, "locations", JArr([])))
            ]))
      else
        match DataNormalizer.NormalizeHetzner(m, now)
        case Err(e) => Err(e)
        case Ok(record) => Ok(JObj(record.fields["platform" := JStr("cloud")]))
  }

  /** The record an item contributes: its normalised form, when that is
      computed without an exception and validates. */
  function Step(item: Json, now: string): (r: Option<Json>)
    ensures r.Some? ==> DataValidator.ValidateInstanceData(r.value) && NormalizeItem(item, now) == Ok(r.value)
    ensures r.None? ==> NormalizeItem(item, now).Err? || !DataValidator.ValidateInstanceData(NormalizeItem(item, now).value)
  {
    match NormalizeItem(item, now)
    case Err(_) => None
    case Ok(record) => if DataValidator.ValidateInstanceData(record) then Some(record) else None
  }

  /** The output of `_normalize_hetzner_data`: the kept items, normalised,
      in input order. */
  function NormalizedHetzner(items: seq<Json>, now: string): seq<Json> {
    SeqFilter.FilterMap(items, item => Step(item, now))
  }

  /** `_normalize_hetzner_data`. */
  method NormalizeHetznerData(items: seq<Json>, now: string) returns (normalized: seq<Json>)
    ensures normalized == NormalizedHetzner(items, now)
  {
    var step := item => Step(item, now);
    normalized := [];
    var i := 0;
    while i < |items|
      invariant 0 <= i <= |items|
      invariant normalized == SeqFilter.FilterMap(items[..i], step)
    {
      assert items[..i + 1][..i] == items[..i];
      var r := NormalizeItem(items[i], now);
      if r.Ok? && DataValidator.ValidateInstanceData(r.value) {
        normalized := normalized + [r.value];
      }
      i := i + 1;
    }
    assert items[..i] == items;
  }

  /** Every record the pass returns validates and is the normalised form of
      some input item; every item that normalises to a valid record is
      returned; there are never more records than items. */
  lemma NormalizedIsFilter(items: seq<Json>, now: string)
    ensures |NormalizedHetzner(items, now)| <= |items|
    ensures forall x :: x in NormalizedHetzner(items, now) ==>
      DataValidator.ValidateInstanceData(x) &&
      exists i :: 0 <= i < |items| && NormalizeItem(items[i], now) == Ok(x)
    ensures forall i :: 0 <= i < |items| && Step(items[i], now).Some? ==>
      NormalizeItem(items[i], now).value in NormalizedHetzner(items, now)
  {
    var step := item => Step(item, now);
    SeqFilter.FilterMapSound(items, step);
    SeqFilter.FilterMapComplete(items, step);
    forall x | x in NormalizedHetzner(items, now)
      ensures DataValidator.ValidateInstanceData(x)
      ensures exists i :: 0 <= i < |items| && NormalizeItem(items[i], now) == Ok(x)
    {
      var i :| 0 <= i < |items| && step(items[i]) == Some(x);
    }
  }

  /** A new-format item keeps every field it had; only the five price,
      provider and region keys are set or overridden. */
  lemma NewFormatKeepsFields(m: map<string, Json>, now: string)
    requires IsNewFormat(m) && NormalizeItem(JObj(m), now).Ok?
    ensures var out := NormalizeItem(JObj(m), now).value.fields;
      && out.Keys == m.Keys + Overridden
      && (forall k :: k in m && k !in Overridden ==> out[k] == m[k])
      && out["provider"] == JStr("hetzner")
      && out["regions"] == (if "regions" in m then m["regions"]
                            else if "locations" in m then m["locations"] else JArr([]))
  {
  }

  /** In both formats the dollar prices are the euro prices converted (a
      falsy euro price giving 0), and `originalPrice` keeps the euro prices
      with currency EUR. */
  lemma ItemPricesConverted(m: map<string, Json>, now: string)
    requires NormalizeItem(JObj(m), now).Ok?
    ensures var out := NormalizeItem(JObj(m), now).value.fields;
      var eurHourly := Lookup(m, "priceEUR_hourly_net", JInt(0));
      var eurMonthly := Lookup(m, "priceEUR_monthly_net", JInt(0));
      && "priceUSD_hourly" in out && Ok(out["priceUSD_hourly"]) == DataNormalizer.UsdFromEur(eurHourly, SixPlaces)
      && "priceUSD_monthly" in out && Ok(out["priceUSD_monthly"]) == DataNormalizer.UsdFromEur(eurMonthly, TwoPlaces)
      && "originalPrice" in out
      && out["originalPrice"] == JObj(map["hourly" := eurHourly, "monthly" := eurMonthly, "currency" := JStr("EUR")])
  {
    if !IsNewFormat(m) {
      DataNormalizer.HetznerProvenance(m, now);
    }
  }

  /** A legacy item becomes the record `normalize_instance_data` builds for
      Hetzner, marked as a cloud product. */
  lemma LegacyMatchesNormalizer(m: map<string, Json>, now: string)
    requires !IsNewFormat(m)
    ensures NormalizeItem(JObj(m), now).Ok? <==> DataNormalizer.NormalizeInstanceData(JObj(m), "hetzner", now).Ok?
    ensures NormalizeItem(JObj(m), now).Ok? ==>
      NormalizeItem(JObj(m), now).value.fields ==
        DataNormalizer.NormalizeInstanceData(JObj(m), "hetzner", now).value.fields["platform" := JStr("cloud")]
  {
  }

  // ---------------------------------------------------------------------
  // Summary statistics (`_generate_summary`)

  /** The value under `field` of every item, when every item is a dict
      holding a hashable value there; `None` when reading or hashing one of
      them raises. */
  function Column(items: seq<Json>, field: string): Option<seq<Json>> {
    if items == [] then Some([])
    else
      var last := items[|items| - 1];
      match Column(items[..|items| - 1], field)
      case None => None
      case Some(c) =>
        if last.JObj? && field in last.fields && Hashable(last.fields[field])
        then Some(c + [last.fields[field]])
        else None
  }

  /** The column exists exactly when every item yields a hashable value,
      and then it lists those values item by item. */
  lemma {:induction false} ColumnSpec(items: seq<Json>, field: string)
    ensures Column(items, field).Some? <==>
      forall i :: 0 <= i < |items| ==>
        items[i].JObj? && field in items[i].fields && Hashable(items[i].fields[field])
    ensures Column(items, field).Some? ==>
      |Column(items, field).value| == |items| &&
      forall i :: 0 <= i < |items| ==> Column(items, field).value[i] == items[i].fields[field]
  {
    if items != [] {
      var init := items[..|items| - 1];
      ColumnSpec(init, field);
      assert forall i :: 0 <= i < |init| ==> init[i] == items[i];
    }
  }

  /** An item whose hourly price can be compared with 0. */
  predicate Priced(item: Json) {
    item.JObj? && "priceUSD_hourly" in item.fields && IsNumber(item.fields["priceUSD_hourly"])
  }

  /** The price an item contributes to the price range: its hourly price
      when that is above zero. */
  function PositivePrice(item: Json): Option<Json> {
    if Priced(item) && NumValue(item.fields["priceUSD_hourly"]) > 0.0
    then Some(item.fields["priceUSD_hourly"]) else None
  }

  /** The `prices` list: `None` when reading or comparing a price raises. */
  function PositivePrices(items: seq<Json>): Option<seq<Json>> {
    if forall i :: 0 <= i < |items| ==> Priced(items[i])
    then Some(SeqFilter.FilterMap(items, PositivePrice)) else None
  }

  /** Every listed price is a number above zero taken from some item, and
      every item's price above zero is listed. */
  lemma PositivePricesSpec(items: seq<Json>)
    requires PositivePrices(items).Some?
    ensures forall p :: p in PositivePrices(items).value ==>
      IsNumber(p) && NumValue(p) > 0.0 &&
      exists i :: 0 <= i < |items| && items[i].fields["priceUSD_hourly"] == p
    ensures forall i :: 0 <= i < |items| && NumValue(items[i].fields["priceUSD_hourly"]) > 0.0 ==>
      items[i].fields["priceUSD_hourly"] in PositivePrices(items).value
  {
    SeqFilter.FilterMapSound(items, PositivePrice);
    SeqFilter.FilterMapComplete(items, PositivePrice);
    forall p | p in PositivePrices(items).value
      ensures IsNumber(p) && NumValue(p) > 0.0
      ensures exists i :: 0 <= i < |items| && items[i].fields["priceUSD_hourly"] == p
    {
      var i :| 0 <= i < |items| && PositivePrice(items[i]) == Some(p);
    }
    forall i | 0 <= i < |items| && NumValue(items[i].fields["priceUSD_hourly"]) > 0.0
      ensures items[i].fields["priceUSD_hourly"] in PositivePrices(items).value
    {
      assert PositivePrice(items[i]).Some?;
    }
  }

  predicate AllNumbers(s: seq<Json>) {
    forall i :: 0 <= i < |s| ==> IsNumber(s[i])
  }

  /** Python's `min`: the first element no later element is below. */
  function MinOf(s: seq<Json>): (m: Json)
    requires s != [] && AllNumbers(s)
    ensures m in s && IsNumber(m)
    ensures forall i :: 0 <= i < |s| ==> NumValue(m) <= NumValue(s[i])
  {
    if |s| == 1 then s[0]
    else
      var m := MinOf(s[..|s| - 1]);
      var last := s[|s| - 1];
      assert forall i :: 0 <= i < |s| - 1 ==> s[..|s| - 1][i] == s[i];
      if NumValue(last) < NumValue(m) then last else m
  }

  /** Python's `max`: the first element no later element is above. */
  function MaxOf(s: seq<Json>): (m: Json)
    requires s != [] && AllNumbers(s)
    ensures m in s && IsNumber(m)
    ensures forall i :: 0 <= i < |s| ==> NumValue(s[i]) <= NumValue(m)
  {
    if |s| == 1 then s[0]
    else
      var m := MaxOf(s[..|s| - 1]);
      var last := s[|s| - 1];
      assert forall i :: 0 <= i < |s| - 1 ==> s[..|s| - 1][i] == s[i];
      if NumValue(last) > NumValue(m) then last else m
  }

  /** `m` sits at index `i` of `s`, and every element before it is larger. */
  predicate FirstMinimum(s: seq<Json>, i: int, m: Json)
    requires AllNumbers(s) && IsNumber(m)
  {
    0 <= i < |s| && s[i] == m && forall j :: 0 <= j < i ==> NumValue(m) < NumValue(s[j])
  }

  /** Among equal extremes `min` keeps the earliest: the value returned is
      the first element at the minimum. */
  lemma {:induction false} MinOfIsFirst(s: seq<Json>)
    requires s != [] && AllNumbers(s)
    ensures exists i :: FirstMinimum(s, i, MinOf(s))
  {
    if |s| == 1 {
      assert FirstMinimum(s, 0, MinOf(s));
    } else {
      var init := s[..|s| - 1];
      assert AllNumbers(init) by {
        forall i | 0 <= i < |init| ensures IsNumber(init[i]) { assert init[i] == s[i]; }
      }
      MinOfIsFirst(init);
      var i :| FirstMinimum(init, i, MinOf(init));
      var k := |s| - 1;
      if NumValue(s[k]) < NumValue(MinOf(init)) {
        assert MinOf(s) == s[k];
        forall j | 0 <= j < k ensures NumValue(MinOf(s)) < NumValue(s[j]) {
          assert s[j] == init[j];
        }
        assert FirstMinimum(s, k, MinOf(s));
      } else {
        assert MinOf(s) == MinOf(init);
        forall j | 0 <= j < i ensures NumValue(MinOf(s)) < NumValue(s[j]) {
          assert s[j] == init[j];
        }
        assert s[i] == init[i];
        assert FirstMinimum(s, i, MinOf(s));
      }
    }
  }

  /** A `by_provider` / `by_type` dict: its keys in insertion order and
      its counts. */
  datatype GroupCount = GroupCount(keys: seq<Json>, counts: map<Json, nat>)

  /** The dict the grouping loop builds over `field`, or `None` when the
      loop raises. */
  function GroupBy(items: seq<Json>, field: string): Option<GroupCount> {
    match Column(items, field)
    case None => None
    case Some(c) => Some(GroupCount(Tally.FirstSeen(c), Tally.Counts(c)))
  }

  /** One grouping loop of `_generate_summary`. */
  method CountBy(items: seq<Json>, field: string) returns (r: Option<GroupCount>)
    ensures r == GroupBy(items, field)
  {
    var keys: seq<Json> := [];
    var counts: map<Json, nat> := map[];
    ghost var col: seq<Json> := [];
    var i := 0;
    while i < |items| && items[i].JObj? && field in items[i].fields && Hashable(items[i].fields[field])
      invariant 0 <= i <= |items|
      invariant Column(items[..i], field) == Some(col)
      invariant keys == Tally.FirstSeen(col) && counts == Tally.Counts(col)
    {
      assert items[..i + 1][..i] == items[..i];
      var key := items[i].fields[field];
      keys, counts := Tally.Add(keys, counts, col, key);
      col := col + [key];
      i := i + 1;
    }
    if i < |items| {
      ColumnSpec(items, field);
      return None;
    }
    assert items[..i] == items;
    r := Some(GroupCount(keys, counts));
  }

  /** The summary record. `errors` is absent from the summary of an empty
      dataset. */
  datatype Summary = Summary(
    totalInstances: nat,
    providersCount: nat,
    lastUpdated: string,
    priceMin: Json,
    priceMax: Json,
    byProvider: GroupCount,
    byType: GroupCount,
    errors: Option<map<string, string>>)

  /** What `_generate_summary` returns, or `None` when it raises. */
  function SummaryOf(allData: seq<Json>, now: string, errors: map<string, string>): Option<Summary> {
    if allData == [] then
      Some(Summary(0, 0, now, JInt(0), JInt(0), GroupCount([], map[]), GroupCount([], map[]), None))
    else
      match (PositivePrices(allData), GroupBy(allData, "provider"), GroupBy(allData, "type"))
      case (Some(prices), Some(byProvider), Some(byType)) =>
        var range := if prices == [] then (JInt(0), JInt(0))
                     else (PositivesAreNumbers(allData); (MinOf(prices), MaxOf(prices)));
        Some(Summary(|allData|, |byProvider.keys|, now, range.0, range.1, byProvider, byType, Some(errors)))
      case _ => None
  }

  lemma PositivesAreNumbers(allData: seq<Json>)
    requires PositivePrices(allData).Some?
    ensures AllNumbers(PositivePrices(allData).value)
  {
    PositivePricesSpec(allData);
  }

  /** The summary can be computed exactly when the data is empty or every
      record has a comparable hourly price and hashable provider and type
      values. */
  lemma SummaryFailsIff(allData: seq<Json>, now: string, errors: map<string, string>)
    ensures SummaryOf(allData, now, errors).Some? <==>
      forall i :: 0 <= i < |allData| ==>
        && Priced(allData[i])
        && "provider" in allData[i].fields && Hashable(allData[i].fields["provider"])
        && "type" in allData[i].fields && Hashable(allData[i].fields["type"])
  {
    ColumnSpec(allData, "provider");
    ColumnSpec(allData, "type");
  }

  /** An item holding `field`; `v` is then its value there. */
  predicate HasValue(item: Json, field: string, v: Json) {
    item.JObj? && field in item.fields && item.fields[field] == v
  }

  /** A grouping lists each distinct value once, in first-seen order, and
      its counts add up to the number of items. */
  lemma GroupByCounts(items: seq<Json>, field: string)
    requires GroupBy(items, field).Some?
    ensures var g := GroupBy(items, field).value;
      && Tally.Distinct(g.keys)
      && (forall k :: k in g.keys <==> exists i :: 0 <= i < |items| && HasValue(items[i], field, k))
      && (forall k :: k in g.keys ==> k in g.counts)
      && Tally.Total(g.keys, g.counts) == |items|
  {
    ColumnSpec(items, field);
    var c := Column(items, field).value;
    Tally.FirstSeenSpec(c);
    Tally.TotalIsLength(c);
    forall k ensures k in c <==> exists i :: 0 <= i < |items| && HasValue(items[i], field, k) {
      if k in c {
        var i :| 0 <= i < |c| && c[i] == k;
        assert HasValue(items[i], field, k);
      }
    }
  }

  /** The group counts of a summary add up to the number of records, their
      keys are the distinct provider (type) values, and `providersCount`
      is the number of distinct providers. */
  lemma SummaryCounts(allData: seq<Json>, now: string, errors: map<string, string>)
    requires SummaryOf(allData, now, errors).Some?
    ensures var s := SummaryOf(allData, now, errors).value;
      && s.totalInstances == |allData|
      && s.providersCount == |s.byProvider.keys|
      && Tally.Distinct(s.byProvider.keys) && Tally.Distinct(s.byType.keys)
      && (forall k :: k in s.byProvider.keys <==> exists i :: 0 <= i < |allData| && HasValue(allData[i], "provider", k))
      && (forall k :: k in s.byType.keys <==> exists i :: 0 <= i < |allData| && HasValue(allData[i], "type", k))
      && (forall k :: k in s.byProvider.keys ==> k in s.byProvider.counts)
      && (forall k :: k in s.byType.keys ==> k in s.byType.counts)
      && Tally.Total(s.byProvider.keys, s.byProvider.counts) == |allData|
      && Tally.Total(s.byType.keys, s.byType.counts) == |allData|
  {
    if allData != [] {
      GroupByCounts(allData, "provider");
      GroupByCounts(allData, "type");
    }
  }

  /** The price range spans the hourly prices above zero: both ends are
      such prices, and every such price lies between them; with none, the
      range is 0 to 0. */
  lemma SummaryPriceRange(allData: seq<Json>, now: string, errors: map<string, string>)
    requires SummaryOf(allData, now, errors).Some?
    ensures var s := SummaryOf(allData, now, errors).value;
      && IsNumber(s.priceMin) && IsNumber(s.priceMax)
      && (forall i :: 0 <= i < |allData| && PositivePrice(allData[i]).Some? ==>
            NumValue(s.priceMin) <= NumValue(allData[i].fields["priceUSD_hourly"]) <= NumValue(s.priceMax))
      && ((exists i :: 0 <= i < |allData| && PositivePrice(allData[i]).Some?) ==>
            NumValue(s.priceMin) > 0.0 && s.priceMin in PositivePrices(allData).value &&
            s.priceMax in PositivePrices(allData).value)
      && ((forall i :: 0 <= i < |allData| ==> PositivePrice(allData[i]).None?) ==>
            s.priceMin == JInt(0) && s.priceMax == JInt(0))
  {
    if allData != [] {
      PositivePricesSpec(allData);
      var prices := PositivePrices(allData).value;
      if prices != [] {
        forall i | 0 <= i < |allData| && PositivePrice(allData[i]).Some?
          ensures NumValue(MinOf(prices)) <= NumValue(allData[i].fields["priceUSD_hourly"]) <= NumValue(MaxOf(prices))
        {
          var p := allData[i].fields["priceUSD_hourly"];
          var k :| 0 <= k < |prices| && prices[k] == p;
        }
      } else {
        forall i | 0 <= i < |allData| ensures PositivePrice(allData[i]).None? {
        }
      }
    }
  }

  /** Records that pass `validate_instance_data` can always be summarised,
      and their provider keys are registered providers. */
  lemma ValidatedSummarizable(allData: seq<Json>, now: string, errors: map<string, string>)
    requires forall i :: 0 <= i < |allData| ==> DataValidator.ValidateInstanceData(allData[i])
    ensures SummaryOf(allData, now, errors).Some?
    ensures forall k :: k in SummaryOf(allData, now, errors).value.byProvider.keys ==>
      k.JStr? && k.s in DataValidator.ValidProviders
  {
    forall i | 0 <= i < |allData|
      ensures && Priced(allData[i])
              && "provider" in allData[i].fields && Hashable(allData[i].fields["provider"])
              && "type" in allData[i].fields && Hashable(allData[i].fields["type"])
              && DataValidator.OneOf(allData[i].fields["provider"], DataValidator.ValidProviders)
    {
      DataValidator.ValidateIffWellFormed(allData[i]);
    }
    SummaryFailsIff(allData, now, errors);
    SummaryCounts(allData, now, errors);
    forall k | k in SummaryOf(allData, now, errors).value.byProvider.keys
      ensures k.JStr? && k.s in DataValidator.ValidProviders
    {
      var i :| 0 <= i < |allData| && HasValue(allData[i], "provider", k);
    }
  }

  // ---------------------------------------------------------------------
  // Provider fetches and the run

  /** What a provider fetcher does: return items, or raise with a message. */
  datatype FetchOutcome = Fetched(items: seq<Json>) | Raised(message: string)

  /** The triple `_fetch_provider_data` returns. */
  datatype ProviderOutcome = ProviderOutcome(provider: string, data: seq<Json>, error: Option<string>)

  /** The data a registered provider yields: the normalised Hetzner items,
      and nothing for the placeholder fetchers or a failed fetch. */
  function ProviderResult(provider: string, hetzner: FetchOutcome, now: string): seq<Json> {
    if provider == "hetzner" && hetzner.Fetched? then NormalizedHetzner(hetzner.items, now) else []
  }

  /** Every record of the Hetzner result passes validation. */
  lemma HetznerResultValid(hetzner: FetchOutcome, now: string)
    ensures var data := ProviderResult("hetzner", hetzner, now);
      forall i :: 0 <= i < |data| ==> DataValidator.ValidateInstanceData(data[i])
  {
    var data := ProviderResult("hetzner", hetzner, now);
    forall i | 0 <= i < |data| ensures DataValidator.ValidateInstanceData(data[i]) {
      NormalizedIsFilter(hetzner.items, now);
      assert data[i] in NormalizedHetzner(hetzner.items, now);
    }
  }

  /** The outcome of `_fetch_provider_data(provider)`. An unregistered name
      raises a `KeyError` whose text is the quoted name. */
  function OutcomeOf(provider: string, hetzner: FetchOutcome, now: string): (r: ProviderOutcome)
    ensures r.provider == provider
    ensures r.error.None? ==> r.data == ProviderResult(provider, hetzner, now)
    ensures r.error.Some? ==> r.data == []
    ensures r.error.Some? <==> provider !in Providers || (provider == "hetzner" && hetzner.Raised?)
  {
    if provider !in Providers then ProviderOutcome(provider, [], Some("'" + provider + "'"))
    else if provider == "hetzner" && hetzner.Raised? then ProviderOutcome(provider, [], Some(hetzner.message))
    else ProviderOutcome(provider, ProviderResult(provider, hetzner, now), None)
  }

  /** `_fetch_provider_data`; the Hetzner collector's outcome is a parameter. */
  method FetchProviderData(provider: string, hetzner: FetchOutcome, now: string) returns (r: ProviderOutcome)
    ensures r == OutcomeOf(provider, hetzner, now)
  {
    if provider !in Providers {
      return ProviderOutcome(provider, [], Some("'" + provider + "'"));
    }
    if provider == "hetzner" {
      match hetzner
      case Raised(message) =>
        return ProviderOutcome(provider, [], Some(message));
      case Fetched(items) =>
        var data := NormalizeHetznerData(items, now);
        return ProviderOutcome(provider, data, None);
    }
    return ProviderOutcome(provider, [], None);
  }

  /** The entry a failed Hetzner fetch leaves in `errors`: none when the
      exception's text is empty, since `if error:` is false for it. */
  function HetznerError(hetzner: FetchOutcome): map<string, string> {
    if hetzner.Raised? && hetzner.message != "" then map["hetzner" := hetzner.message] else map[]
  }

  /** Dict insertion order: the keys of `order` followed by each new key of
      `added`, in order. */
  function Extend(order: seq<string>, added: seq<string>): seq<string> {
    if added == [] then order
    else
      var o := Extend(order, added[..|added| - 1]);
      if added[|added| - 1] in o then o else o + [added[|added| - 1]]
  }

  /** The concatenation of the results, in insertion order. */
  function AllData(order: seq<string>, results: map<string, seq<Json>>): seq<Json>
    requires forall p :: p in order ==> p in results
  {
    if order == [] then []
    else AllData(order[..|order| - 1], results) + results[order[|order| - 1]]
  }

  /** The loop of `run` that concatenates the results dict's lists. */
  method CombineResults(order: seq<string>, results: map<string, seq<Json>>) returns (all: seq<Json>)
    requires forall p :: p in order ==> p in results
    ensures all == AllData(order, results)
  {
    all := [];
    for i := 0 to |order|
      invariant all == AllData(order[..i], results)
    {
      assert order[..i + 1][..i] == order[..i];
      all := all + results[order[i]];
    }
    assert order[..|order|] == order;
  }

  /** When every provider but Hetzner has no data, the combined data is the
      Hetzner data. */
  lemma {:induction false} AllDataIsHetzner(order: seq<string>, results: map<string, seq<Json>>)
    requires Tally.Distinct(order)
    requires forall p :: p in order ==> p in results
    requires forall p :: p in results && p != "hetzner" ==> results[p] == []
    ensures AllData(order, results) == if "hetzner" in order then results["hetzner"] else []
  {
    if order != [] {
      var init := order[..|order| - 1];
      assert Tally.Distinct(init);
      AllDataIsHetzner(init, results);
      assert order == init + [order[|order| - 1]];
      if order[|order| - 1] == "hetzner" {
        assert "hetzner" !in init;
      }
    }
  }

  /** The results dict entries of the listed providers. */
  function ResultsFor(providers: seq<string>, hetzner: FetchOutcome, now: string): map<string, seq<Json>> {
    map p | p in providers :: ProviderResult(p, hetzner, now)
  }

  lemma ResultsForStep(providers: seq<string>, p: string, hetzner: FetchOutcome, now: string)
    ensures ResultsFor(providers + [p], hetzner, now) == ResultsFor(providers, hetzner, now)[p := ProviderResult(p, hetzner, now)]
  {
  }

  /** One provider's effect on the errors dict. */
  lemma ErrorsStep(base: map<string, string>, before: map<string, string>, after: map<string, string>,
                   done: seq<string>, provider: string, hetzner: FetchOutcome)
    requires provider in Providers
    requires before == base + (if "hetzner" in done then HetznerError(hetzner) else map[])
    requires var e := OutcomeOf(provider, hetzner, "").error;
      after == if e.Some? && e.value != "" then before[provider := e.value] else before
    ensures after == base + (if "hetzner" in done + [provider] then HetznerError(hetzner) else map[])
  {
    var earlier := if "hetzner" in done then HetznerError(hetzner) else map[];
    if provider == "hetzner" && hetzner.Raised? && hetzner.message != "" {
      assert earlier["hetzner" := hetzner.message] == HetznerError(hetzner);
      MergeUpdate(base, earlier, "hetzner", hetzner.message);
    }
  }

  /** One provider's effect on the results dict. */
  lemma ResultsStep(base: map<string, seq<Json>>, before: map<string, seq<Json>>, after: map<string, seq<Json>>,
                    done: seq<string>, provider: string, hetzner: FetchOutcome, now: string)
    requires provider in Providers
    requires before == base + ResultsFor(done, hetzner, now)
    requires var o := OutcomeOf(provider, hetzner, now);
      after == before[provider := if o.error.Some? && o.error.value != "" then [] else o.data]
    ensures after == base + ResultsFor(done + [provider], hetzner, now)
  {
    ResultsForStep(done, provider, hetzner, now);
    MergeUpdate(base, ResultsFor(done, hetzner, now), provider, ProviderResult(provider, hetzner, now));
  }

  lemma MergeUpdate<K, V>(a: map<K, V>, b: map<K, V>, k: K, v: V)
    ensures a + b[k := v] == (a + b)[k := v]
  {
  }

  lemma ExtendStep(order: seq<string>, added: seq<string>, p: string)
    ensures Extend(order, added + [p]) == Extend(Extend(order, added), [p])
  {
    assert (added + [p])[..|added|] == added;
    assert [p][..0] == [];
  }

  /** `CloudDataOrchestrator`: the results and errors it collects, and the
      insertion order of its results dict. */
  class CloudDataOrchestrator {
    var results: map<string, seq<Json>>
    var resultOrder: seq<string>
    var errors: map<string, string>

    /** The results dict has one key per provider that has reported, each
        once, in `resultOrder`. */
    ghost predicate Valid()
      reads this
    {
      && Tally.Distinct(resultOrder)
      && (forall p :: p in resultOrder <==> p in results)
      && (forall p :: p in results ==> p in Providers)
    }

    constructor ()
      ensures Valid()
      ensures results == map[] && resultOrder == [] && errors == map[]
    {
      results := map[];
      resultOrder := [];
      errors := map[];
    }

    /** The body of the collection loop of `fetch_all_providers`: a
        failure with a non-empty message is recorded as an error and leaves
        an empty result; otherwise the data is the result. */
    method Record(outcome: ProviderOutcome)
      requires Valid() && outcome.provider in Providers
      modifies this
      ensures Valid()
      ensures var failed := outcome.error.Some? && outcome.error.value != "";
        && results == old(results)[outcome.provider := if failed then [] else outcome.data]
        && errors == (if failed then old(errors)[outcome.provider := outcome.error.value] else old(errors))
      ensures resultOrder == Extend(old(resultOrder), [outcome.provider])
    {
      var provider := outcome.provider;
      assert [provider][..0] == [];
      if provider !in results {
        resultOrder := resultOrder + [provider];
      }
      if outcome.error.Some? && outcome.error.value != "" {
        errors := errors[provider := outcome.error.value];
        results := results[provider := []];
      } else {
        results := results[provider := outcome.data];
      }
    }

    /** One turn of the loop of `fetch_all_providers`, after the providers
        in `done`. */
    method FetchNext(provider: string, done: seq<string>, hetzner: FetchOutcome, now: string,
                     ghost results0: map<string, seq<Json>>, ghost errors0: map<string, string>, ghost order0: seq<string>)
      requires Valid() && provider in Providers
      requires results == results0 + ResultsFor(done, hetzner, now)
      requires errors == errors0 + (if "hetzner" in done then HetznerError(hetzner) else map[])
      requires resultOrder == Extend(order0, done)
      modifies this
      ensures Valid()
      ensures results == results0 + ResultsFor(done + [provider], hetzner, now)
      ensures errors == errors0 + (if "hetzner" in done + [provider] then HetznerError(hetzner) else map[])
      ensures resultOrder == Extend(order0, done + [provider])
    {
      var outcome := FetchProviderData(provider, hetzner, now);
      assert outcome.error == OutcomeOf(provider, hetzner, "").error;
      ghost var resultsBefore, errorsBefore := results, errors;
      Record(outcome);
      ErrorsStep(errors0, errorsBefore, errors, done, provider, hetzner);
      ResultsStep(results0, resultsBefore, results, done, provider, hetzner, now);
      ExtendStep(order0, done, provider);
    }

    /** `fetch_all_providers`, with the providers run one after another in
        registration order. Every provider gets a result (the empty list
        when it failed), and only a failure with a non-empty message is
        recorded as an error. */
    method FetchAllProviders(hetzner: FetchOutcome, now: string) returns (r: map<string, seq<Json>>)
      requires Valid()
      modifies this
      ensures Valid()
      ensures results == old(results) + ResultsFor(Providers, hetzner, now)
      ensures errors == old(errors) + HetznerError(hetzner)
      ensures resultOrder == Extend(old(resultOrder), Providers)
      ensures r == results
    {
      for i := 0 to |Providers|
        invariant Valid()
        invariant results == old(results) + ResultsFor(Providers[..i], hetzner, now)
        invariant errors == old(errors) + (if "hetzner" in Providers[..i] then HetznerError(hetzner) else map[])
        invariant resultOrder == Extend(old(resultOrder), Providers[..i])
      {
        assert Providers[..i + 1] == Providers[..i] + [Providers[i]];
        FetchNext(Providers[i], Providers[..i], hetzner, now, old(results), old(errors), old(resultOrder));
      }
      assert Providers[..|Providers|] == Providers;
      r := results;
    }

    /** `_generate_summary`; `None` when it raises. */
    method GenerateSummary(allData: seq<Json>, now: string) returns (s: Option<Summary>)
      ensures s == SummaryOf(allData, now, errors)
    {
      if allData == [] {
        return Some(Summary(0, 0, now, JInt(0), JInt(0), GroupCount([], map[]), GroupCount([], map[]), None));
      }
      var prices := PositivePrices(allData);
      if prices.None? {
        return None;
      }
      var byProvider := CountBy(allData, "provider");
      if byProvider.None? {
        return None;
      }
      var byType := CountBy(allData, "type");
      if byType.None? {
        return None;
      }
      var low, high := JInt(0), JInt(0);
      if prices.value != [] {
        PositivesAreNumbers(allData);
        low, high := MinOf(prices.value), MaxOf(prices.value);
      }
      s := Some(Summary(|allData|, |byProvider.value.keys|, now, low, high, byProvider.value, byType.value, Some(errors)));
    }

    /** `run`: fetch, combine, summarise; success means data was collected
        and summarised. An empty dataset also ends in the exception
        handler, since its summary has no `errors` entry to read. */
    method Run(hetzner: FetchOutcome, now: string) returns (ok: bool)
      requires Valid()
      modifies this
      ensures Valid()
      ensures ok <==> |AllData(resultOrder, results)| > 0 && SummaryOf(AllData(resultOrder, results), now, errors).Some?
      ensures ok <==> |ProviderResult("hetzner", hetzner, now)| > 0
    {
      var _ := FetchAllProviders(hetzner, now);
      var all := CombineResults(resultOrder, results);
      assert forall p :: p in Providers ==> p in results && results[p] == ProviderResult(p, hetzner, now) by {
        assert forall p :: p in Providers ==> p in ResultsFor(Providers, hetzner, now);
      }
      HetznerIsAllData(hetzner, now);
      var summary := GenerateSummary(all, now);
      if summary.None? {
        return false;
      }
      if summary.value.errors.None? {
        return false;
      }
      ok := |all| > 0;
    }

    /** After a fetch the combined data is the Hetzner result, which always
        summarises. */
    lemma HetznerIsAllData(hetzner: FetchOutcome, now: string)
      requires Valid()
      requires forall p :: p in Providers ==> p in results && results[p] == ProviderResult(p, hetzner, now)
      ensures AllData(resultOrder, results) == ProviderResult("hetzner", hetzner, now)
      ensures SummaryOf(AllData(resultOrder, results), now, errors).Some?
    {
      assert forall p :: p in results && p != "hetzner" ==> results[p] == [];
      AllDataIsHetzner(resultOrder, results);
      assert "hetzner" in resultOrder;
      var data := ProviderResult("hetzner", hetzner, now);
      HetznerResultValid(hetzner, now);
      ValidatedSummarizable(data, now, errors);
    }
  }
}
