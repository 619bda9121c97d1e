/** Mapping of one provider's raw record onto the canonical record shape
    (`scripts/utils/data_normalizer.py`). The clock reading that becomes
    `lastUpdated` is a parameter. */
module DataNormalizer {

  import opened Wrappers
  import opened PyJson
  import DataValidator
  import PyText

  const Providers: seq<string> := ["hetzner", "aws", "azure", "gcp", "oci", "ovh"]

  /** The fixed euro-to-dollar factor of the Hetzner normaliser. */
  const EurToUsdFactor: real := 1.1

  /** `round(eur * 1.1 if eur else 0, places)`: a falsy euro price gives the
      integer 0, a numeric one its dollar value rounded, and anything else
      raises when multiplied. */
  function UsdFromEur(eur: Json, scale: real): (r: Result<Json>)
    requires scale >= 1.0
    ensures !Truthy(eur) ==> r == Ok(JInt(0))
    ensures Truthy(eur) ==> (r.Ok? <==> IsNumber(eur))
    ensures r.Err? ==> r.error == TypeError
    ensures r.Ok? && Truthy(eur) ==>
      (r.value.JReal? && -0.5 <= r.value.r * scale - NumValue(eur) * EurToUsdFactor * scale <= 0.5)
    ensures r.Ok? && IsNumber(eur) && NumValue(eur) >= 0.0 ==> IsNumber(r.value) && NumValue(r.value) >= 0.0
  {
    if !Truthy(eur) then Ok(JInt(0))
    else if IsNumber(eur) then
      var usd := NumValue(eur) * EurToUsdFactor;
      RoundToIsNearestStep(usd, scale);
      RoundToNonNegative(usd, scale);
      Ok(JReal(RoundTo(usd, scale)))
    else Err(TypeError)
  }

  /** `_normalize_hetzner`. */
  function NormalizeHetzner(data: map<string, Json>, now: string): (r: Result<Json>)
    ensures r.Ok? <==> UsdFromEur(Lookup(data, "priceEUR_hourly_net", JInt(0)), SixPlaces).Ok? &&
                       UsdFromEur(Lookup(data, "priceEUR_monthly_net", JInt(0)), TwoPlaces).Ok?
    ensures r.Ok? ==> r.value.JObj?
  {
    var eurHourly := Lookup(data, "priceEUR_hourly_net", JInt(0));
    var eurMonthly := Lookup(data, "priceEUR_monthly_net", JInt(0));
    match UsdFromEur(eurHourly, SixPlaces)
    case Err(e) => Err(e)
    case Ok(usdHourly) =>
      match UsdFromEur(eurMonthly, TwoPlaces)
      case Err(e) => Err(e)
      case Ok(usdMonthly) =>
        Ok(JObj(HetznerRecord(data, usdHourly, usdMonthly, now)))
  }

  /** The record `_normalize_hetzner` builds from the converted prices
      (the keys no lemma reads come first; order is immaterial in a map). */
  function HetznerRecord(data: map<string, Json>, usdHourly: Json, usdMonthly: Json, now: string): map<string, Json> {
    map[
      "diskType" := Lookup(data, "diskType", JNull),
      "diskSizeGB" := Lookup(data, "diskSizeGB", JNull),
      "description" := Lookup(data, "description", JStr("")),
      "type" := Lookup(data, "type", JStr("cloud-server")),
      "instanceType" := Lookup(data, "instanceType", JStr("")),
      "vCPU" := Lookup(data, "vCPU", JInt(0)),
      "memoryGiB" := Lookup(data, "memoryGiB", JInt(0)),
      "regions" := Lookup(data, "locations", JArr([])),
      "deprecated" := Lookup(data, "deprecated", JBool(false)),
      "source" := Lookup(data, "source", JStr("hetzner_api")),
      "provider" := JStr("hetzner"),
      "priceUSD_hourly" := usdHourly,
      "priceUSD_monthly" := usdMonthly,
      "originalPrice" := JObj(map[
        "hourly" := Lookup(data, "priceEUR_hourly_net", JInt(0)),
        "monthly" := Lookup(data, "priceEUR_monthly_net", JInt(0)),
        "currency" := JStr("EUR")]),
      "lastUpdated" := JStr(now),
      "raw" := JObj(data)
    ]
  }

  lemma HetznerRecordKind(data: map<string, Json>, usdHourly: Json, usdMonthly: Json, now: string)
    ensures var out := HetznerRecord(data, usdHourly, usdMonthly, now);
      && "type" in out && out["type"] == Lookup(data, "type", JStr("cloud-server"))
      && "instanceType" in out && out["instanceType"] == Lookup(data, "instanceType", JStr(""))
  {
  }

  lemma HetznerRecordSpecs(data: map<string, Json>, usdHourly: Json, usdMonthly: Json, now: string)
    ensures var out := HetznerRecord(data, usdHourly, usdMonthly, now);
      && "vCPU" in out && out["vCPU"] == Lookup(data, "vCPU", JInt(0))
      && "memoryGiB" in out && out["memoryGiB"] == Lookup(data, "memoryGiB", JInt(0))
  {
  }

  lemma HetznerRecordListing(data: map<string, Json>, usdHourly: Json, usdMonthly: Json, now: string)
    ensures var out := HetznerRecord(data, usdHourly, usdMonthly, now);
      && "regions" in out && out["regions"] == Lookup(data, "locations", JArr([]))
      && "deprecated" in out && out["deprecated"] == Lookup(data, "deprecated", JBool(false))
  {
  }

  lemma HetznerRecordSource(data: map<string, Json>, usdHourly: Json, usdMonthly: Json, now: string)
    ensures var out := HetznerRecord(data, usdHourly, usdMonthly, now);
      && "source" in out && out["source"] == Lookup(data, "source", JStr("hetzner_api"))
      && "provider" in out && out["provider"] == JStr("hetzner")
  {
  }

  lemma HetznerRecordPrices(data: map<string, Json>, usdHourly: Json, usdMonthly: Json, now: string)
    ensures var out := HetznerRecord(data, usdHourly, usdMonthly, now);
      && "priceUSD_hourly" in out && out["priceUSD_hourly"] == usdHourly
      && "priceUSD_monthly" in out && out["priceUSD_monthly"] == usdMonthly
  {
  }

  lemma HetznerRecordOrigin(data: map<string, Json>, usdHourly: Json, usdMonthly: Json, now: string)
    ensures var out := HetznerRecord(data, usdHourly, usdMonthly, now);
      && "originalPrice" in out
      && out["originalPrice"] == JObj(map["hourly" := Lookup(data, "priceEUR_hourly_net", JInt(0)),
                                          "monthly" := Lookup(data, "priceEUR_monthly_net", JInt(0)),
                                          "currency" := JStr("EUR")])
      && "lastUpdated" in out && out["lastUpdated"] == JStr(now)
      && "raw" in out && out["raw"] == JObj(data)
  {
  }

  /** Each descriptive field of a normalised Hetzner record is the input's
      value, or its fixed default when the input lacks it. */
  lemma HetznerDefaults(data: map<string, Json>, now: string)
    requires NormalizeHetzner(data, now).Ok?
    ensures var out := NormalizeHetzner(data, now).value.fields;
      && "type" in out && out["type"] == (if "type" in data then data["type"] else JStr("cloud-server"))
      && "instanceType" in out && out["instanceType"] == (if "instanceType" in data then data["instanceType"] else JStr(""))
      && "vCPU" in out && out["vCPU"] == (if "vCPU" in data then data["vCPU"] else JInt(0))
      && "memoryGiB" in out && out["memoryGiB"] == (if "memoryGiB" in data then data["memoryGiB"] else JInt(0))
      && "regions" in out && out["regions"] == (if "locations" in data then data["locations"] else JArr([]))
      && "deprecated" in out && out["deprecated"] == (if "deprecated" in data then data["deprecated"] else JBool(false))
      && "source" in out && out["source"] == (if "source" in data then data["source"] else JStr("hetzner_api"))
  {
    var eurHourly := Lookup(data, "priceEUR_hourly_net", JInt(0));
    var eurMonthly := Lookup(data, "priceEUR_monthly_net", JInt(0));
    var usdHourly, usdMonthly := UsdFromEur(eurHourly, SixPlaces).value, UsdFromEur(eurMonthly, TwoPlaces).value;
    HetznerRecordKind(data, usdHourly, usdMonthly, now);
    HetznerRecordSpecs(data, usdHourly, usdMonthly, now);
    HetznerRecordListing(data, usdHourly, usdMonthly, now);
    HetznerRecordSource(data, usdHourly, usdMonthly, now);
  }

  /** A normalised Hetzner record carries the provider tag, the dollar
      prices converted from the euro ones, the euro prices unconverted under
      `originalPrice`, the clock reading, and the input itself under `raw`. */
  lemma HetznerProvenance(data: map<string, Json>, now: string)
    requires NormalizeHetzner(data, now).Ok?
    ensures var out := NormalizeHetzner(data, now).value.fields;
      var eurHourly := if "priceEUR_hourly_net" in data then data["priceEUR_hourly_net"] else JInt(0);
      var eurMonthly := if "priceEUR_monthly_net" in data then data["priceEUR_monthly_net"] else JInt(0);
      && "provider" in out && out["provider"] == JStr("hetzner")
      && "priceUSD_hourly" in out && Ok(out["priceUSD_hourly"]) == UsdFromEur(eurHourly, SixPlaces)
      && "priceUSD_monthly" in out && Ok(out["priceUSD_monthly"]) == UsdFromEur(eurMonthly, TwoPlaces)
      && "originalPrice" in out
      && out["originalPrice"] == JObj(map["hourly" := eurHourly, "monthly" := eurMonthly, "currency" := JStr("EUR")])
      && "lastUpdated" in out && out["lastUpdated"] == JStr(now)
      && "raw" in out && out["raw"] == JObj(data)
  {
    var eurHourly := Lookup(data, "priceEUR_hourly_net", JInt(0));
    var eurMonthly := Lookup(data, "priceEUR_monthly_net", JInt(0));
    var usdHourly, usdMonthly := UsdFromEur(eurHourly, SixPlaces).value, UsdFromEur(eurMonthly, TwoPlaces).value;
    HetznerRecordSource(data, usdHourly, usdMonthly, now);
    HetznerRecordPrices(data, usdHourly, usdMonthly, now);
    HetznerRecordOrigin(data, usdHourly, usdMonthly, now);
  }

  /** The five placeholder normalisers (`_normalize_aws` … `_normalize_ovh`),
      which differ only in their provider tag. */
  function NormalizePlaceholder(tag: string, data: map<string, Json>, now: string): (r: Result<Json>)
    ensures var price := Lookup(data, "priceUSD", JInt(0));
      r.Ok? <==> !(price.JNull? || price.JObj?)
    ensures r.Ok? ==> r.value.JObj? && PlaceholderShape(tag, data, now, r.value.fields)
  {
    var price := Lookup(data, "priceUSD", JInt(0));
    match TimesInt(price, 24 * 30)
    case Err(e) => Err(e)
    case Ok(monthly) =>
      Ok(JObj(map[
        "instanceType" := Lookup(data, "instanceType", JStr("")),
        "vCPU" := Lookup(data, "vCPU", JInt(0)),
        "memoryGiB" := Lookup(data, "memoryGiB", JInt(0)),
        "regions" := Lookup(data, "regions", JArr([])),
        "provider" := JStr(tag),
        "type" := JStr("cloud-server"),
        "priceUSD_hourly" := price,
        "priceUSD_monthly" := monthly,
        "lastUpdated" := JStr(now),
        "raw" := JObj(data)
      ]))
  }

  /** A placeholder record: its own tag, a cloud server, the dollar price
      as given (0 when absent) and thirty days of it as the monthly price. */
  predicate PlaceholderShape(tag: string, data: map<string, Json>, now: string, out: map<string, Json>) {
    var price := if "priceUSD" in data then data["priceUSD"] else JInt(0);
    && "provider" in out && out["provider"] == JStr(tag)
    && "type" in out && out["type"] == JStr("cloud-server")
    && "priceUSD_hourly" in out && out["priceUSD_hourly"] == price
    && "priceUSD_monthly" in out
    && (IsNumber(price) ==> IsNumber(out["priceUSD_monthly"]) &&
                            NumValue(out["priceUSD_monthly"]) == NumValue(price) * 720.0)
    && "lastUpdated" in out && out["lastUpdated"] == JStr(now)
    && "raw" in out && out["raw"] == JObj(data)
  }

  /** `normalize_instance_data`: dispatch on the provider name. `hetzner`
      goes to the Hetzner normaliser and each other known name to its
      placeholder normaliser; an unknown name raises `ValueError`; a record
      that is not a dict has no `get`. */
  function NormalizeInstanceData(raw: Json, provider: string, now: string): (r: Result<Json>)
    ensures provider !in Providers ==> r == Err(ValueError)
    ensures provider in Providers && !raw.JObj? ==> r == Err(AttributeError)
    ensures provider == "hetzner" && raw.JObj? ==> r == NormalizeHetzner(raw.fields, now)
    ensures provider in Providers && provider != "hetzner" && raw.JObj? ==>
      r == NormalizePlaceholder(provider, raw.fields, now)
    ensures r.Ok? ==>
      (r.value.JObj? && "provider" in r.value.fields &&
       r.value.fields["provider"] == JStr(provider) &&
       "raw" in r.value.fields && r.value.fields["raw"] == raw &&
       "lastUpdated" in r.value.fields && r.value.fields["lastUpdated"] == JStr(now))
  {
    if provider !in Providers then Err(ValueError)
    else if !raw.JObj? then Err(AttributeError)
    else if provider == "hetzner" then NormalizeHetzner(raw.fields, now)
    else NormalizePlaceholder(provider, raw.fields, now)
  }

  /** Normalising the same record twice differs only in the time stamp. */
  lemma NormalizeDependsOnClockOnlyInStamp(raw: Json, provider: string, t1: string, t2: string)
    ensures var r1 := NormalizeInstanceData(raw, provider, t1);
      var r2 := NormalizeInstanceData(raw, provider, t2);
      && r1.Ok? == r2.Ok?
      && (r1.Err? ==> r1 == r2)
      && (r1.Ok? ==> r1.value.fields - {"lastUpdated"} == r2.value.fields - {"lastUpdated"})
  {
  }

  /** A Hetzner record without `vCPU` or `memoryGiB` normalises to a 0 in
      that field, which the validator rejects. */
  lemma MissingSpecsRejected(data: map<string, Json>, now: string)
    requires "vCPU" !in data || "memoryGiB" !in data
    requires NormalizeHetzner(data, now).Ok?
    ensures !DataValidator.ValidateInstanceData(NormalizeHetzner(data, now).value)
  {
    HetznerDefaults(data, now);
    var out := NormalizeHetzner(data, now).value;
    DataValidator.ValidateIffWellFormed(out);
    assert !DataValidator.PositiveIfPresent(out.fields, "vCPU") ||
           !DataValidator.PositiveIfPresent(out.fields, "memoryGiB");
  }

  /** A Hetzner record with a valid type, a non-blank instance type,
      positive specs and a non-negative numeric (or absent) hourly euro price
      normalises to a record the validator accepts. */
  lemma WellSpecifiedHetznerAccepted(data: map<string, Json>, now: string)
    requires "type" in data && DataValidator.OneOf(data["type"], DataValidator.ValidTypes)
    requires "instanceType" in data && data["instanceType"].JStr? &&
             !PyText.AllSpace(data["instanceType"].s)
    requires "vCPU" in data && IsNumber(data["vCPU"]) && NumValue(data["vCPU"]) > 0.0
    requires "memoryGiB" in data && IsNumber(data["memoryGiB"]) && NumValue(data["memoryGiB"]) > 0.0
    requires var e := Lookup(data, "priceEUR_hourly_net", JInt(0)); IsNumber(e) && NumValue(e) >= 0.0
    requires NormalizeHetzner(data, now).Ok?
    ensures DataValidator.ValidateInstanceData(NormalizeHetzner(data, now).value)
  {
    HetznerDefaults(data, now);
    HetznerProvenance(data, now);
    var out := NormalizeHetzner(data, now).value;
    DataValidator.ValidateIffWellFormed(out);
    assert forall f :: f in DataValidator.RequiredFields ==> f in out.fields;
  }
}
