/** The library-based Hetzner collector (`scripts/fetch_hetzner_v3.py`):
    server types priced per region, with the price range over regions and
    a derived IPv6-only price; load balancer types priced from their first
    price entry; the mapping of location codes to places; and the rule for
    building the cloud collector. The `hcloud` client objects become
    values passed in, and so do the pricing response and the timestamp. */
module HetznerV3 {

  import opened Wrappers
  import opened PyJson
  import PyText
  import SeqFilter
  import V2 = HetznerV2Collect

  /** The monthly price of the IPv4 primary IP that an IPv6-only server
      saves. */
  const Ipv4PrimaryIpCost: real := 0.5

  /** Hours in the average month the IPv6-only hourly price uses. */
  const HoursPerMonth: real := 730.44

  // ---------------------------------------------------------------------
  // Locations

  /** What a location code maps to. */
  datatype Place = Place(city: string, country: string, countryCode: string, region: string)

  /** A `Location` object of the client library; its optional attributes
      may be `None`. */
  datatype Location = Location(name: string, city: Option<string>, country: Option<string>, description: Option<string>)

  /** The built-in table of known locations. */
  function KnownLocation(name: string): Option<Place> {
    match name
    case "ash" => Some(Place("Ashburn", "United States", "US", "Virginia"))
    case "fsn1" => Some(Place("Falkenstein", "Germany", "DE", "Saxony"))
    case "hel1" => Some(Place("Helsinki", "Finland", "FI", "Uusimaa"))
    case "hil" => Some(Place("Hildesheim", "Germany", "DE", "Lower Saxony"))
    case "nbg1" => Some(Place("Nuremberg", "Germany", "DE", "Bavaria"))
    case "sin" => Some(Place("Singapore", "Singapore", "SG", "Singapore"))
    case _ => None
  }

  /** Python's `v or d` on an optional string. */
  function OrElse(v: Option<string>, d: string): string {
    if v.Some? && v.value != "" then v.value else d
  }

  /** The place built from the location's own attributes. */
  function FallbackPlace(l: Location): Place {
    Place(
      OrElse(l.city, l.name),
      OrElse(l.country, "Unknown"),
      if l.country.Some? && l.country.value != "" then PyText.Upper(l.country.value[..if |l.country.value| < 2 then |l.country.value| else 2]) else "XX",
      OrElse(l.description, "Unknown"))
  }

  function PlaceOf(l: Location): Place {
    if KnownLocation(l.name).Some? then KnownLocation(l.name).value else FallbackPlace(l)
  }

  /** `_get_location_mapping`: each location's name mapped to its place; a
      later location with the same name replaces an earlier one. */
  function LocationMap(locations: seq<Location>): map<string, Place> {
    if locations == [] then map[]
    else
      var l := locations[|locations| - 1];
      LocationMap(locations[..|locations| - 1])[l.name := PlaceOf(l)]
  }

  method GetLocationMapping(locations: seq<Location>) returns (m: map<string, Place>)
    ensures m == LocationMap(locations)
  {
    m := map[];
    for i := 0 to |locations|
      invariant m == LocationMap(locations[..i])
    {
      assert locations[..i + 1][..i] == locations[..i];
      m := m[locations[i].name := PlaceOf(locations[i])];
    }
    assert locations[..|locations|] == locations;
  }

  /** The map has exactly the locations' names; a known name maps to its
      entry of the table, whatever the location says, and any other name to
      the place built from the last location carrying it. */
  lemma LocationMapEntries(locations: seq<Location>)
    ensures forall n :: n in LocationMap(locations) <==> exists l :: l in locations && l.name == n
    ensures forall n :: n in LocationMap(locations) && KnownLocation(n).Some? ==> LocationMap(locations)[n] == KnownLocation(n).value
    ensures forall i :: (0 <= i < |locations| && KnownLocation(locations[i].name).None? &&
                         (forall j :: i < j < |locations| ==> locations[j].name != locations[i].name)) ==>
      LocationMap(locations)[locations[i].name] == FallbackPlace(locations[i])
  {
    LocationMapDomain(locations);
    LocationMapKnown(locations);
    LocationMapLast(locations);
  }

  lemma {:induction false} LocationMapDomain(locations: seq<Location>)
    ensures forall n :: n in LocationMap(locations) <==> exists l :: l in locations && l.name == n
  {
    if locations != [] {
      var init := locations[..|locations| - 1];
      var l := locations[|locations| - 1];
      LocationMapDomain(init);
      assert locations == init + [l];
      forall n ensures n in LocationMap(locations) <==> exists l' :: l' in locations && l'.name == n {
        if n in LocationMap(init) {
          var l' :| l' in init && l'.name == n;
          assert l' in locations;
        }
        if exists l' :: l' in locations && l'.name == n {
          var l' :| l' in locations && l'.name == n;
          assert l' in init || l' == l;
        }
      }
    }
  }

  lemma {:induction false} LocationMapKnown(locations: seq<Location>)
    ensures forall n :: n in LocationMap(locations) && KnownLocation(n).Some? ==> LocationMap(locations)[n] == KnownLocation(n).value
  {
    if locations != [] {
      LocationMapKnown(locations[..|locations| - 1]);
    }
  }

  lemma {:induction false} LocationMapLast(locations: seq<Location>)
    ensures forall i :: (0 <= i < |locations| && KnownLocation(locations[i].name).None? &&
                         (forall j :: i < j < |locations| ==> locations[j].name != locations[i].name)) ==>
      locations[i].name in LocationMap(locations) && LocationMap(locations)[locations[i].name] == FallbackPlace(locations[i])
  {
    if locations != [] {
      var init := locations[..|locations| - 1];
      LocationMapLast(init);
      forall i | 0 <= i < |locations| - 1 && KnownLocation(locations[i].name).None? &&
        (forall j :: i < j < |locations| ==> locations[j].name != locations[i].name)
        ensures locations[i].name in LocationMap(locations) && LocationMap(locations)[locations[i].name] == FallbackPlace(locations[i])
      {
        assert init[i] == locations[i];
        assert forall j :: i < j < |init| ==> init[j] == locations[j];
      }
    }
  }

  /** The details of one location code: the mapped place, or the code
      itself as the city with unknown country and region. A code that
      cannot be a dictionary key raises. */
  function LocationDetail(places: map<string, Place>, code: Json): Result<Json> {
    if !Hashable(code) then Err(TypeError)
    else if code.JStr? && code.s in places then
      var p := places[code.s];
      Ok(JObj(map["code" := code, "city" := JStr(p.city), "country" := JStr(p.country),
                  "countryCode" := JStr(p.countryCode), "region" := JStr(p.region)]))
    else
      Ok(JObj(map["code" := code, "city" := code, "country" := JStr("Unknown"),
                  "countryCode" := JStr("XX"), "region" := JStr("Unknown")]))
  }

  /** The details of each code, in order. */
  function LocationDetails(places: map<string, Place>, codes: seq<Json>): Result<seq<Json>> {
    if exists i :: 0 <= i < |codes| && !Hashable(codes[i]) then Err(TypeError)
    else Ok(seq(|codes|, i requires 0 <= i < |codes| => LocationDetail(places, codes[i]).value))
  }

  method BuildLocationDetails(places: map<string, Place>, codes: seq<Json>) returns (r: Result<seq<Json>>)
    ensures r == LocationDetails(places, codes)
  {
    var details: seq<Json> := [];
    for i := 0 to |codes|
      invariant forall j :: 0 <= j < i ==> Hashable(codes[j])
      invariant details == seq(i, j requires 0 <= j < i => LocationDetail(places, codes[j]).value)
    {
      var detail := LocationDetail(places, codes[i]);
      if detail.Err? {
        return Err(detail.error);
      }
      details := details + [detail.value];
    }
    r := Ok(details);
  }

  /** A code the map does not know is shown as its own city, in country
      `Unknown` with country code `XX`. */
  lemma UnknownCodeDetail(places: map<string, Place>, code: string)
    requires code !in places
    ensures LocationDetail(places, JStr(code)).Ok?
    ensures var d := LocationDetail(places, JStr(code)).value.fields;
      d["city"] == JStr(code) && d["country"] == JStr("Unknown") && d["countryCode"] == JStr("XX") && d["region"] == JStr("Unknown")
  {
  }

  /** Through the mapping, a known code always shows its table entry. */
  lemma KnownCodeDetail(locations: seq<Location>, code: string)
    requires KnownLocation(code).Some? && exists l :: l in locations && l.name == code
    ensures LocationDetail(LocationMap(locations), JStr(code)).Ok?
    ensures var d := LocationDetail(LocationMap(locations), JStr(code)).value.fields;
      d["city"] == JStr(KnownLocation(code).value.city) && d["countryCode"] == JStr(KnownLocation(code).value.countryCode)
  {
    LocationMapEntries(locations);
  }

  // ---------------------------------------------------------------------
  // The pricing index

  /** The pricing entries of one section by name: `pricing_by_type`. */
  function PricingIndex(pricing: Json, section: string): Result<map<Json, Json>> {
    match Has(pricing, "pricing")
    case Err(e) => Err(e)
    case Ok(present) =>
      if !present then Ok(map[])
      else
        match Index(pricing, "pricing")
        case Err(e) => Err(e)
        case Ok(p) =>
          match Get(p, section, JArr([]))
          case Err(e) => Err(e)
          case Ok(v) =>
            match V2.Elements(v)
            case Err(e) => Err(e)
            case Ok(items) => V2.IndexEntries(items)
  }

  /** The pricing entry of a type: `pricing_by_type.get(name, {})`. */
  function PriceInfo(index: map<Json, Json>, name: string): map<string, Json> {
    if JStr(name) in index && index[JStr(name)].JObj? then index[JStr(name)].fields else map[]
  }

  // ---------------------------------------------------------------------
  // Regional pricing

  datatype RegionalPrice = RegionalPrice(location: Json, hourly: real, monthly: real, includedTraffic: Json, trafficPrice: real)

  /** What one price entry contributes: nothing without a location. */
  function RegionalOf(e: Json): (r: Result<Option<RegionalPrice>>)
    ensures r.Ok? ==> e.JObj? && (r.value.Some? <==> Truthy(Lookup(e.fields, "location", JNull)))
    ensures r.Ok? && r.value.Some? ==> r.value.value.location == e.fields["location"]
  {
    if !e.JObj? then Err(AttributeError)
    else
      var location := Lookup(e.fields, "location", JNull);
      if !Truthy(location) then Ok(None)
      else
        var hourly := V2.EntryPrice(e, "price_hourly");
        var monthly := V2.EntryPrice(e, "price_monthly");
        var traffic := V2.EntryPrice(e, "price_per_tb_traffic");
        if hourly.Err? then Err(hourly.error)
        else if monthly.Err? then Err(monthly.error)
        else if traffic.Err? then Err(traffic.error)
        else Ok(Some(RegionalPrice(location, hourly.value, monthly.value,
                                   Lookup(e.fields, "included_traffic", JInt(0)), traffic.value)))
  }

  /** `regional_pricing` over the price entries. */
  function Regional(entries: seq<Json>): Result<seq<RegionalPrice>> {
    if entries == [] then Ok([])
    else
      match Regional(entries[..|entries| - 1])
      case Err(e) => Err(e)
      case Ok(rs) =>
        match RegionalOf(entries[|entries| - 1])
        case Err(e) => Err(e)
        case Ok(p) => Ok(if p.Some? then rs + [p.value] else rs)
  }

  function LocationsOf(rs: seq<RegionalPrice>): seq<Json> {
    seq(|rs|, i requires 0 <= i < |rs| => rs[i].location)
  }

  /** The loop building `regional_pricing` and `locations_list` together. */
  method CollectRegionalPricing(entries: seq<Json>) returns (r: Result<(seq<RegionalPrice>, seq<Json>)>)
    ensures r.Ok? <==> Regional(entries).Ok?
    ensures r.Err? ==> r.error == Regional(entries).error
    ensures r.Ok? ==> r.value.0 == Regional(entries).value && r.value.1 == LocationsOf(r.value.0)
  {
    var regional: seq<RegionalPrice> := [];
    var locations: seq<Json> := [];
    for i := 0 to |entries|
      invariant Regional(entries[..i]) == Ok(regional)
      invariant locations == LocationsOf(regional)
    {
      RegionalSnoc(entries, i);
      var p := RegionalOf(entries[i]);
      if p.Err? {
        RegionalFailsOnward(entries, i + 1);
        return Err(p.error);
      }
      if p.value.Some? {
        LocationsOfSnoc(regional, p.value.value);
        regional := regional + [p.value.value];
        locations := locations + [p.value.value.location];
      }
    }
    assert entries[..|entries|] == entries;
    r := Ok((regional, locations));
  }

  lemma RegionalSnoc(entries: seq<Json>, i: nat)
    requires i < |entries| && Regional(entries[..i]).Ok?
    ensures var step := RegionalOf(entries[i]);
      Regional(entries[..i + 1]) ==
        if step.Err? then Err(step.error)
        else if step.value.Some? then Ok(Regional(entries[..i]).value + [step.value.value])
        else Regional(entries[..i])
  {
    assert entries[..i + 1][..i] == entries[..i];
  }

  lemma LocationsOfSnoc(rs: seq<RegionalPrice>, p: RegionalPrice)
    ensures LocationsOf(rs + [p]) == LocationsOf(rs) + [p.location]
  {
  }

  lemma {:induction false} RegionalFailsOnward(entries: seq<Json>, n: nat)
    requires n <= |entries| && Regional(entries[..n]).Err?
    ensures Regional(entries) == Regional(entries[..n])
    decreases |entries| - n
  {
    if n < |entries| {
      assert entries[..n + 1][..n] == entries[..n];
      RegionalFailsOnward(entries, n + 1);
    } else {
      assert entries[..n] == entries;
    }
  }

  /** One regional price per entry with a location, in entry order;
      entries without one are dropped. */
  function LocatedPrice(e: Json): Option<RegionalPrice> {
    if RegionalOf(e).Ok? then RegionalOf(e).value else None
  }

  lemma {:induction false} RegionalIsLocatedEntries(entries: seq<Json>)
    requires Regional(entries).Ok?
    ensures Regional(entries).value == SeqFilter.FilterMap(entries, LocatedPrice)
    ensures LocationsOf(Regional(entries).value) ==
      SeqFilter.FilterMap(entries, (e: Json) => if e.JObj? && Truthy(Lookup(e.fields, "location", JNull)) then Some(e.fields["location"]) else None)
  {
    if entries != [] {
      var init := entries[..|entries| - 1];
      RegionalIsLocatedEntries(init);
      var rs := Regional(init).value;
      var p := RegionalOf(entries[|entries| - 1]).value;
      var all := Regional(entries).value;
      assert all == if p.Some? then rs + [p.value] else rs;
      assert LocationsOf(all) == LocationsOf(rs) + (if p.Some? then [p.value.location] else []);
    }
  }

  // ---------------------------------------------------------------------
  // Price ranges

  function Min(s: seq<real>): (m: real)
    requires |s| > 0
    ensures m in s && forall x :: x in s ==> m <= x
  {
    if |s| == 1 then s[0]
    else
      var rest := Min(s[1..]);
      assert forall x :: x in s ==> x == s[0] || x in s[1..];
      if s[0] <= rest then s[0] else rest
  }

  function Max(s: seq<real>): (m: real)
    requires |s| > 0
    ensures m in s && forall x :: x in s ==> x <= m
  {
    if |s| == 1 then s[0]
    else
      var rest := Max(s[1..]);
      assert forall x :: x in s ==> x == s[0] || x in s[1..];
      if s[0] >= rest then s[0] else rest
  }

  function Hourlies(rs: seq<RegionalPrice>): seq<real> {
    seq(|rs|, i requires 0 <= i < |rs| => rs[i].hourly)
  }

  function Monthlies(rs: seq<RegionalPrice>): seq<real> {
    seq(|rs|, i requires 0 <= i < |rs| => rs[i].monthly)
  }

  /** A range shows variation exactly when two regions differ in price. */
  lemma RangeVariation(s: seq<real>)
    requires |s| > 0
    ensures Min(s) <= Max(s)
    ensures Min(s) != Max(s) <==> exists i, j :: 0 <= i < |s| && 0 <= j < |s| && s[i] != s[j]
  {
    if exists i, j :: 0 <= i < |s| && 0 <= j < |s| && s[i] != s[j] {
      var i, j :| 0 <= i < |s| && 0 <= j < |s| && s[i] != s[j];
      assert s[i] in s && s[j] in s;
    } else {
      var m :| 0 <= m < |s| && s[m] == Min(s);
      var n :| 0 <= n < |s| && s[n] == Max(s);
    }
  }

  /** Python's `max(0, x - cost)`: the integer 0 unless the difference is
      positive. */
  function LessCost(x: real, cost: real): Json {
    if x - cost > 0.0 then JReal(x - cost) else JInt(0)
  }

  /** The IPv6-only hourly price: the IPv6-only monthly price over
      730.44 hours when positive, otherwise `None`. */
  function Ipv6OnlyHourly(monthly: Json): Json {
    if monthly.JReal? && monthly.r > 0.0 then JReal(monthly.r / HoursPerMonth) else JNull
  }

  /** The IPv6-only price is never negative, never above a non-negative
      IPv4 price, and exactly the saving less when that is positive; its
      hourly price is set exactly when it is positive. */
  lemma Ipv6OnlyPrice(x: real, cost: real)
    requires cost > 0.0
    ensures 0.0 <= NumValue(LessCost(x, cost))
    ensures x >= 0.0 ==> NumValue(LessCost(x, cost)) <= x
    ensures x > cost ==> NumValue(LessCost(x, cost)) == x - cost
    ensures Ipv6OnlyHourly(LessCost(x, cost)) != JNull <==> x > cost
    ensures x > cost ==> Ipv6OnlyHourly(LessCost(x, cost)).r * HoursPerMonth == x - cost
  {
  }

  /** The IPv6-only bounds keep the order of the IPv4 bounds. */
  lemma Ipv6OnlyRangeOrdered(lo: real, hi: real, cost: real)
    requires lo <= hi
    ensures NumValue(LessCost(lo, cost)) <= NumValue(LessCost(hi, cost))
  {
  }

  /** The cheapest and dearest of some prices. */
  datatype Bounds = Bounds(lo: real, hi: real)

  function BoundsOf(s: seq<real>): Bounds
    requires |s| > 0
  {
    Bounds(Min(s), Max(s))
  }

  function RangeJson(b: Bounds): Json {
    JObj(map["min" := JReal(b.lo), "max" := JReal(b.hi), "hasVariation" := JBool(b.lo != b.hi)])
  }

  function BoundsJson(lo: Json, hi: Json): Json {
    JObj(map["min" := lo, "max" := hi])
  }

  // ---------------------------------------------------------------------
  // Server types

  /** A type object of the client library: its name and its other
      attributes. */
  datatype CloudType = CloudType(name: string, attrs: map<string, Json>)

  function RegionalJson(p: RegionalPrice): Json {
    JObj(map["location" := p.location, "hourly_net" := JReal(p.hourly), "monthly_net" := JReal(p.monthly),
             "included_traffic" := p.includedTraffic, "traffic_price_per_tb" := JReal(p.trafficPrice)])
  }

  function NetworkOptions(hourly: Bounds, monthly: Bounds): Json {
    var ipv6Monthly := LessCost(monthly.lo, Ipv4PrimaryIpCost);
    JObj(map[
      "ipv4_ipv6" := JObj(map[
        "available" := JBool(true),
        "hourly" := JReal(hourly.lo),
        "monthly" := JReal(monthly.lo),
        "description" := JStr("IPv4 + IPv6 included"),
        "priceRange" := JObj(map["hourly" := BoundsJson(JReal(hourly.lo), JReal(hourly.hi)),
                                 "monthly" := BoundsJson(JReal(monthly.lo), JReal(monthly.hi))])]),
      "ipv6_only" := JObj(map[
        "available" := JBool(true),
        "hourly" := Ipv6OnlyHourly(ipv6Monthly),
        "monthly" := ipv6Monthly,
        "savings" := JReal(Ipv4PrimaryIpCost),
        "description" := JStr("IPv6-only (saves €0.50/month)"),
        "priceRange" := JObj(map[
          "hourly" := BoundsJson(LessCost(hourly.lo, Ipv4PrimaryIpCost / HoursPerMonth),
                                 LessCost(hourly.hi, Ipv4PrimaryIpCost / HoursPerMonth)),
          "monthly" := BoundsJson(LessCost(monthly.lo, Ipv4PrimaryIpCost),
                                  LessCost(monthly.hi, Ipv4PrimaryIpCost))])])
    ])
  }

  /** The record of a server type priced in at least one region. */
  function ServerRecord(t: CloudType, rs: seq<RegionalPrice>, details: seq<Json>, now: string): Json
    requires |rs| > 0
  {
    RecordWithBounds(t, rs, BoundsOf(Hourlies(rs)), BoundsOf(Monthlies(rs)), details, now)
  }

  /** The record given the hourly and monthly bounds over its regions
      (the keys read most often come last; order is immaterial in a map). */
  function RecordWithBounds(t: CloudType, rs: seq<RegionalPrice>, hourly: Bounds, monthly: Bounds, details: seq<Json>, now: string): Json {
    JObj(map[
      "platform" := JStr("cloud"),
      "type" := JStr("cloud-server"),
      "instanceType" := JStr(t.name),
      "vCPU" := Lookup(t.attrs, "cores", JInt(0)),
      "memoryGiB" := Lookup(t.attrs, "memory", JInt(0)),
      "diskType" := Lookup(t.attrs, "storage_type", JStr("")),
      "diskSizeGB" := Lookup(t.attrs, "disk", JInt(0)),
      "cpuType" := Lookup(t.attrs, "cpu_type", JStr("")),
      "architecture" := Lookup(t.attrs, "architecture", JStr("")),
      "locationDetails" := JArr(details),
      "deprecated" := Lookup(t.attrs, "deprecated", JBool(false)),
      "source" := JStr("hetzner_cloud_api"),
      "description" := Lookup(t.attrs, "description", JStr("")),
      "lastUpdated" := JStr(now),
      "regionalPricing" := JArr(seq(|rs|, i requires 0 <= i < |rs| => RegionalJson(rs[i]))),
      "defaultNetworkType" := JStr("ipv4_ipv6"),
      "supportsIPv6Only" := JBool(true),
      "hetzner_metadata" := JObj(map["platform" := JStr("cloud"), "apiSource" := JStr("hcloud_library"),
                                     "serviceCategory" := JStr("compute"),
                                     "ipv4_primary_ip_cost" := JReal(Ipv4PrimaryIpCost)]),
      "regions" := JArr(LocationsOf(rs)),
      "priceEUR_hourly_net" := JReal(hourly.lo),
      "priceEUR_monthly_net" := JReal(monthly.lo),
      "priceRange" := JObj(map["hourly" := RangeJson(hourly), "monthly" := RangeJson(monthly)]),
      "networkOptions" := NetworkOptions(hourly, monthly)
    ])
  }

  /** The loop body for one server type: `Ok(None)` for a `continue`,
      `Err` for an exception (both skip the type). */
  function ServerEntry(t: CloudType, index: map<Json, Json>, places: map<string, Place>, now: string): Result<Option<Json>> {
    var info := PriceInfo(index, t.name);
    if "prices" !in info then Ok(None)
    else
      match V2.Elements(info["prices"])
      case Err(e) => Err(e)
      case Ok(entries) =>
        match Regional(entries)
        case Err(e) => Err(e)
        case Ok(rs) =>
          if rs == [] then Ok(None)
          else
            match LocationDetails(places, LocationsOf(rs))
            case Err(e) => Err(e)
            case Ok(details) => Ok(Some(ServerRecord(t, rs, details, now)))
  }

  function ServerOutput(index: map<Json, Json>, places: map<string, Place>, now: string): CloudType -> Option<Json> {
    (t: CloudType) => if ServerEntry(t, index, places, now).Ok? then ServerEntry(t, index, places, now).value else None
  }

  /** `_collect_server_types` given the library's server types and
      locations and the status and body of the pricing request. A failed
      pricing request or an unreadable pricing body gives no records. */
  function CollectServerTypes(types: seq<CloudType>, locations: seq<Location>, status: int, pricing: Json, now: string): seq<Json> {
    if status != 200 then []
    else
      match PricingIndex(pricing, "server_types")
      case Err(_) => []
      case Ok(index) => SeqFilter.FilterMap(types, ServerOutput(index, LocationMap(locations), now))
  }

  /** The try block for one server type. */
  method ProcessServerType(t: CloudType, index: map<Json, Json>, places: map<string, Place>, now: string)
    returns (r: Result<Option<Json>>)
    ensures r == ServerEntry(t, index, places, now)
  {
    var info := PriceInfo(index, t.name);
    if "prices" !in info {
      return Ok(None);
    }
    var entries := V2.Elements(info["prices"]);
    if entries.Err? {
      return Err(entries.error);
    }
    var regional := CollectRegionalPricing(entries.value);
    if regional.Err? {
      return Err(regional.error);
    }
    var rs := regional.value.0;
    if rs == [] {
      return Ok(None);
    }
    var details := BuildLocationDetails(places, regional.value.1);
    if details.Err? {
      return Err(details.error);
    }
    r := Ok(Some(ServerRecord(t, rs, details.value, now)));
  }

  method CollectServerTypesLoop(types: seq<CloudType>, locations: seq<Location>, status: int, pricing: Json, now: string)
    returns (servers: seq<Json>)
    ensures servers == CollectServerTypes(types, locations, status, pricing, now)
  {
    servers := [];
    if status != 200 {
      return;
    }
    var index := PricingIndex(pricing, "server_types");
    if index.Err? {
      return;
    }
    var places := GetLocationMapping(locations);
    for i := 0 to |types|
      invariant servers == SeqFilter.FilterMap(types[..i], ServerOutput(index.value, places, now))
    {
      assert types[..i + 1][..i] == types[..i];
      var entry := ProcessServerType(types[i], index.value, places, now);
      if entry.Ok? && entry.value.Some? {
        servers := servers + [entry.value.value];
      }
    }
    assert types[..|types|] == types;
  }

  /** A server type is skipped when its pricing entry has no `prices` or
      no price entry with a location. */
  lemma ServerTypeSkipped(t: CloudType, index: map<Json, Json>, places: map<string, Place>, now: string)
    ensures "prices" !in PriceInfo(index, t.name) ==> ServerEntry(t, index, places, now) == Ok(None)
    ensures ("prices" in PriceInfo(index, t.name) && V2.Elements(PriceInfo(index, t.name)["prices"]).Ok? &&
             Regional(V2.Elements(PriceInfo(index, t.name)["prices"]).value) == Ok([])) ==>
      ServerEntry(t, index, places, now) == Ok(None)
  {
  }

  /** A server type's record: the cheapest region's prices as the
      defaults, the ranges over the regions, and the derived IPv6-only
      monthly price. */
  lemma ServerTypePrices(t: CloudType, rs: seq<RegionalPrice>, details: seq<Json>, now: string)
    requires |rs| > 0
    ensures var r := ServerRecord(t, rs, details, now).fields;
      && r["priceEUR_hourly_net"] == JReal(Min(Hourlies(rs)))
      && r["priceEUR_monthly_net"] == JReal(Min(Monthlies(rs)))
      && (forall i :: 0 <= i < |rs| ==> Min(Hourlies(rs)) <= rs[i].hourly && Min(Monthlies(rs)) <= rs[i].monthly)
      && r["regions"] == JArr(LocationsOf(rs))
      && r["priceRange"] == JObj(map["hourly" := RangeJson(BoundsOf(Hourlies(rs))), "monthly" := RangeJson(BoundsOf(Monthlies(rs)))])
      && r["networkOptions"].fields["ipv6_only"].fields["monthly"] == LessCost(Min(Monthlies(rs)), Ipv4PrimaryIpCost)
  {
    var hourly, monthly := BoundsOf(Hourlies(rs)), BoundsOf(Monthlies(rs));
    RecordDefaults(t, rs, hourly, monthly, details, now);
    RecordRanges(t, rs, hourly, monthly, details, now);
    RecordIpv6Only(t, rs, hourly, monthly, details, now);
    forall i | 0 <= i < |rs| ensures Min(Hourlies(rs)) <= rs[i].hourly && Min(Monthlies(rs)) <= rs[i].monthly {
      assert Hourlies(rs)[i] in Hourlies(rs) && Monthlies(rs)[i] in Monthlies(rs);
    }
  }

  lemma RecordDefaults(t: CloudType, rs: seq<RegionalPrice>, hourly: Bounds, monthly: Bounds, details: seq<Json>, now: string)
    ensures var r := RecordWithBounds(t, rs, hourly, monthly, details, now).fields;
      r["priceEUR_hourly_net"] == JReal(hourly.lo) && r["priceEUR_monthly_net"] == JReal(monthly.lo)
  {
  }

  lemma RecordRanges(t: CloudType, rs: seq<RegionalPrice>, hourly: Bounds, monthly: Bounds, details: seq<Json>, now: string)
    ensures var r := RecordWithBounds(t, rs, hourly, monthly, details, now).fields;
      && r["regions"] == JArr(LocationsOf(rs))
      && r["priceRange"] == JObj(map["hourly" := RangeJson(hourly), "monthly" := RangeJson(monthly)])
  {
  }

  lemma RecordIpv6Only(t: CloudType, rs: seq<RegionalPrice>, hourly: Bounds, monthly: Bounds, details: seq<Json>, now: string)
    ensures RecordWithBounds(t, rs, hourly, monthly, details, now).fields["networkOptions"].fields["ipv6_only"].fields["monthly"] ==
      LessCost(monthly.lo, Ipv4PrimaryIpCost)
  {
    var options := RecordWithBounds(t, rs, hourly, monthly, details, now).fields["networkOptions"];
    assert options == NetworkOptions(hourly, monthly);
  }

  // ---------------------------------------------------------------------
  // Load balancer types

  function LoadBalancerRecord(t: CloudType, hourly: real, monthly: real, locations: seq<Json>, details: seq<Json>, now: string): Json {
    JObj(map[
      "platform" := JStr("cloud"),
      "type" := JStr("cloud-loadbalancer"),
      "instanceType" := JStr(t.name),
      "max_connections" := Lookup(t.attrs, "max_connections", JInt(0)),
      "max_services" := Lookup(t.attrs, "max_services", JInt(0)),
      "max_targets" := Lookup(t.attrs, "max_targets", JInt(0)),
      "max_assigned_certificates" := Lookup(t.attrs, "max_assigned_certificates", JInt(0)),
      "locationDetails" := JArr(details),
      "deprecated" := Lookup(t.attrs, "deprecated", JBool(false)),
      "source" := JStr("hetzner_cloud_api"),
      "description" := Lookup(t.attrs, "description", JStr("")),
      "lastUpdated" := JStr(now),
      "hetzner_metadata" := JObj(map["platform" := JStr("cloud"), "apiSource" := JStr("hcloud_library"),
                                     "serviceCategory" := JStr("networking")]),
      "priceEUR_hourly_net" := JReal(hourly),
      "priceEUR_monthly_net" := JReal(monthly),
      "regions" := JArr(locations)
    ])
  }

  /** `prices[0]` on a truthy `prices`: only a list has a first element
      that the loop body can read. */
  function FirstPrice(prices: Json): Result<Json>
    requires Truthy(prices)
  {
    match prices
    case JArr(items) => Ok(items[0])
    case JObj(_) => Err(KeyError)
    case JStr(_) => Err(AttributeError)
    case _ => Err(TypeError)
  }

  /** `[p.get('location') for p in prices if p.get('location')]`. */
  function LocatedCodes(items: seq<Json>): Result<seq<Json>> {
    if exists i :: 0 <= i < |items| && !items[i].JObj? then Err(AttributeError)
    else Ok(SeqFilter.FilterMap(items, (p: Json) =>
      if p.JObj? && Truthy(Lookup(p.fields, "location", JNull)) then Some(p.fields["location"]) else None))
  }

  /** The loop body for one load balancer type. */
  function LoadBalancerEntry(t: CloudType, index: map<Json, Json>, places: map<string, Place>, now: string): Result<Option<Json>> {
    var info := PriceInfo(index, t.name);
    if "prices" !in info || !Truthy(info["prices"]) then Ok(None)
    else
      match FirstPrice(info["prices"])
      case Err(e) => Err(e)
      case Ok(first) =>
        var hourly := V2.EntryPrice(first, "price_hourly");
        var monthly := V2.EntryPrice(first, "price_monthly");
        if hourly.Err? then Err(hourly.error)
        else if monthly.Err? then Err(monthly.error)
        else
          match LocatedCodes(info["prices"].items)
          case Err(e) => Err(e)
          case Ok(codes) =>
            if hourly.value == 0.0 && monthly.value == 0.0 then Ok(None)
            else
              match LocationDetails(places, codes)
              case Err(e) => Err(e)
              case Ok(details) => Ok(Some(LoadBalancerRecord(t, hourly.value, monthly.value, codes, details, now)))
  }

  function LoadBalancerOutput(index: map<Json, Json>, places: map<string, Place>, now: string): CloudType -> Option<Json> {
    (t: CloudType) => if LoadBalancerEntry(t, index, places, now).Ok? then LoadBalancerEntry(t, index, places, now).value else None
  }

  /** `_collect_load_balancer_types`. */
  function CollectLoadBalancerTypes(types: seq<CloudType>, locations: seq<Location>, status: int, pricing: Json, now: string): seq<Json> {
    if status != 200 then []
    else
      match PricingIndex(pricing, "load_balancer_types")
      case Err(_) => []
      case Ok(index) => SeqFilter.FilterMap(types, LoadBalancerOutput(index, LocationMap(locations), now))
  }

  method CollectLoadBalancerTypesLoop(types: seq<CloudType>, locations: seq<Location>, status: int, pricing: Json, now: string)
    returns (lbs: seq<Json>)
    ensures lbs == CollectLoadBalancerTypes(types, locations, status, pricing, now)
  {
    lbs := [];
    if status != 200 {
      return;
    }
    var index := PricingIndex(pricing, "load_balancer_types");
    if index.Err? {
      return;
    }
    var places := GetLocationMapping(locations);
    for i := 0 to |types|
      invariant lbs == SeqFilter.FilterMap(types[..i], LoadBalancerOutput(index.value, places, now))
    {
      assert types[..i + 1][..i] == types[..i];
      var entry := LoadBalancerEntry(types[i], index.value, places, now);
      if entry.Ok? && entry.value.Some? {
        lbs := lbs + [entry.value.value];
      }
    }
    assert types[..|types|] == types;
  }

  /** The record a priced load balancer type gets, spelled out. */
  lemma LoadBalancerEntryIs(t: CloudType, index: map<Json, Json>, places: map<string, Place>, now: string)
    requires LoadBalancerEntry(t, index, places, now).Ok? && LoadBalancerEntry(t, index, places, now).value.Some?
    ensures var info := PriceInfo(index, t.name);
      && "prices" in info && info["prices"].JArr? && |info["prices"].items| > 0
      && var first := info["prices"].items[0];
      && V2.EntryPrice(first, "price_hourly").Ok? && V2.EntryPrice(first, "price_monthly").Ok?
      && LocatedCodes(info["prices"].items).Ok?
      && LocationDetails(places, LocatedCodes(info["prices"].items).value).Ok?
      && !(V2.EntryPrice(first, "price_hourly").value == 0.0 && V2.EntryPrice(first, "price_monthly").value == 0.0)
      && LoadBalancerEntry(t, index, places, now).value.value ==
         LoadBalancerRecord(t, V2.EntryPrice(first, "price_hourly").value, V2.EntryPrice(first, "price_monthly").value,
                            LocatedCodes(info["prices"].items).value,
                            LocationDetails(places, LocatedCodes(info["prices"].items).value).value, now)
  {
  }

  /** A load balancer's price is its first price entry's, never both zero;
      its regions are every located entry, in order. */
  lemma LoadBalancerPrices(t: CloudType, index: map<Json, Json>, places: map<string, Place>, now: string)
    requires LoadBalancerEntry(t, index, places, now).Ok? && LoadBalancerEntry(t, index, places, now).value.Some?
    ensures var info := PriceInfo(index, t.name);
      && "prices" in info && info["prices"].JArr? && |info["prices"].items| > 0
      && var first := info["prices"].items[0];
      && V2.EntryPrice(first, "price_hourly").Ok? && V2.EntryPrice(first, "price_monthly").Ok?
      && LocatedCodes(info["prices"].items).Ok?
      && var r := LoadBalancerEntry(t, index, places, now).value.value.fields;
      && r["priceEUR_hourly_net"] == JReal(V2.EntryPrice(first, "price_hourly").value)
      && r["priceEUR_monthly_net"] == JReal(V2.EntryPrice(first, "price_monthly").value)
      && !(V2.EntryPrice(first, "price_hourly").value == 0.0 && V2.EntryPrice(first, "price_monthly").value == 0.0)
      && r["regions"] == JArr(LocatedCodes(info["prices"].items).value)
  {
    LoadBalancerEntryIs(t, index, places, now);
    var info := PriceInfo(index, t.name);
    var first := info["prices"].items[0];
    var h, m := V2.EntryPrice(first, "price_hourly").value, V2.EntryPrice(first, "price_monthly").value;
    var codes := LocatedCodes(info["prices"].items).value;
    LoadBalancerRecordFields(t, h, m, codes, LocationDetails(places, codes).value, now);
  }

  lemma LoadBalancerRecordFields(t: CloudType, hourly: real, monthly: real, locations: seq<Json>, details: seq<Json>, now: string)
    ensures var r := LoadBalancerRecord(t, hourly, monthly, locations, details, now).fields;
      r["priceEUR_hourly_net"] == JReal(hourly) && r["priceEUR_monthly_net"] == JReal(monthly) && r["regions"] == JArr(locations)
  {
  }

  /** A load balancer type without prices, or priced at zero, is
      skipped. */
  lemma LoadBalancerSkipped(t: CloudType, index: map<Json, Json>, places: map<string, Place>, now: string)
    ensures var info := PriceInfo(index, t.name);
      ("prices" !in info || info["prices"] == JArr([])) ==> LoadBalancerEntry(t, index, places, now) == Ok(None)
  {
  }

  // ---------------------------------------------------------------------
  // Building the collectors

  /** The `HetznerCloudCollector` constructor: it refuses to run without
      the library or without a token; `clientRaises` stands for the
      library client's own constructor failing. */
  function CloudCollectorInit(hcloudAvailable: bool, token: string, clientRaises: bool): (r: Result<()>)
    ensures r.Ok? ==> hcloudAvailable && token != ""
  {
    if !hcloudAvailable then Err(ImportError)
    else if token == "" then Err(ValueError)
    else if clientRaises then Err(TypeError)
    else Ok(())
  }

  /** `HetznerDataCollector.__init__` for the cloud side: the collector is
      only attempted when cloud is enabled, the library is present and the
      token is non-empty, and kept when its constructor succeeds. */
  function HasCloudCollector(enableCloud: bool, hcloudAvailable: bool, token: string, clientRaises: bool): bool {
    enableCloud && hcloudAvailable && token != "" && CloudCollectorInit(hcloudAvailable, token, clientRaises).Ok?
  }

  /** The guard makes the constructor's own checks redundant: only the
      client library failing can leave an attempted collector unset. */
  lemma CloudCollectorRule(enableCloud: bool, hcloudAvailable: bool, token: string, clientRaises: bool)
    ensures HasCloudCollector(enableCloud, hcloudAvailable, token, clientRaises) <==>
      enableCloud && hcloudAvailable && token != "" && !clientRaises
  {
  }
}
