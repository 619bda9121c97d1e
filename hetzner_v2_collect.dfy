/** The record-building side of the refactored Hetzner collector
    (`scripts/fetch_hetzner_v2.py`): server and load balancer types joined
    with their pricing by name, the per-location volume and floating IP
    records, and the mapping of Robot API products. The second request for
    the pricing data is a parameter, and so is the timestamp written into
    `lastUpdated`. */
module HetznerV2Collect {

  import opened Wrappers
  import opened PyJson
  import SeqFilter

  /** The elements of a JSON value iterated by a loop whose body starts by
      calling `.get` on each element: a list gives its items; an empty dict
      or string gives nothing; a non-empty dict or string gives strings,
      whose missing `.get` raises `AttributeError`; anything else is not
      iterable. */
  function Elements(v: Json): Result<seq<Json>> {
    match v
    case JArr(items) => Ok(items)
    case JObj(f) => if f == map[] then Ok([]) else Err(AttributeError)
    case JStr(s) => if s == [] then Ok([]) else Err(AttributeError)
    case _ => Err(TypeError)
  }

  // ---------------------------------------------------------------------
  // The pricing index

  /** `pricing_by_type[entry.get('name')] = entry` over the entries: a
      later entry with the same name (`None` included) replaces an earlier
      one. */
  function IndexEntries(items: seq<Json>): Result<map<Json, Json>> {
    if items == [] then Ok(map[])
    else
      match IndexEntries(items[..|items| - 1])
      case Err(e) => Err(e)
      case Ok(m) =>
        var p := items[|items| - 1];
        if !p.JObj? then Err(AttributeError)
        else if !Hashable(Lookup(p.fields, "name", JNull)) then Err(TypeError)
        else Ok(m[Lookup(p.fields, "name", JNull) := p])
  }

  /** The pricing entries of one section (`server_types` or
      `load_balancer_types`) of a pricing response, by name; empty when
      the response is falsy or has no `pricing`. */
  function PricingIndex(pricing: Json, section: string): Result<map<Json, Json>> {
    if !Truthy(pricing) then Ok(map[])
    else
      match Has(pricing, "pricing")
      case Err(e) => Err(e)
      case Ok(present) =>
        if !present then Ok(map[])
        else
          match Index(pricing, "pricing")
          case Err(e) => Err(e)
          case Ok(p) =>
            match Get(p, section, JArr([]))
            case Err(e) => Err(e)
            case Ok(v) =>
              match Elements(v)
              case Err(e) => Err(e)
              case Ok(items) => IndexEntries(items)
  }

  /** Every indexed value is a dict carrying the name it is indexed by. */
  lemma {:induction false} IndexedByName(items: seq<Json>)
    requires IndexEntries(items).Ok?
    ensures forall k :: k in IndexEntries(items).value ==>
      IndexEntries(items).value[k].JObj? && Lookup(IndexEntries(items).value[k].fields, "name", JNull) == k &&
      IndexEntries(items).value[k] in items
  {
    if items != [] {
      var init := items[..|items| - 1];
      IndexedByName(init);
      forall k | k in IndexEntries(init).value ensures IndexEntries(init).value[k] in items {
        assert IndexEntries(init).value[k] in init;
      }
    }
  }

  // ---------------------------------------------------------------------
  // Picking prices

  /** The loop state: hourly and monthly net prices (`JNull` for `None`)
      and the locations seen. */
  datatype Scan = Scan(hourly: Json, monthly: Json, locations: seq<Json>)

  const NoScan := Scan(JNull, JNull, [])

  /** `float(price['net'])` with `net` defaulting to 0. */
  function NetPrice(price: Json): Result<Json> {
    match Get(price, "net", JInt(0))
    case Err(e) => Err(e)
    case Ok(v) =>
      match Float(v)
      case Err(e) => Err(e)
      case Ok(x) => Ok(JReal(x))
  }

  /** One pass of the price loop: the location is collected when truthy;
      a price is read from the first entry having its key, independently
      for the hourly and the monthly price. */
  function ScanStep(st: Scan, entry: Json): Result<Scan> {
    if !entry.JObj? then Err(AttributeError)
    else
      var f := entry.fields;
      var location := Lookup(f, "location", JNull);
      var locs := if Truthy(location) then st.locations + [location] else st.locations;
      var hourly := if st.hourly == JNull && "price_hourly" in f then NetPrice(f["price_hourly"]) else Ok(st.hourly);
      var monthly := if st.monthly == JNull && "price_monthly" in f then NetPrice(f["price_monthly"]) else Ok(st.monthly);
      if hourly.Err? then Err(hourly.error)
      else if monthly.Err? then Err(monthly.error)
      else Ok(Scan(hourly.value, monthly.value, locs))
  }

  function ScanLoop(st: Scan, entries: seq<Json>): Result<Scan>
    decreases |entries|
  {
    if entries == [] then Ok(st)
    else
      match ScanStep(st, entries[0])
      case Err(e) => Err(e)
      case Ok(next) => ScanLoop(next, entries[1..])
  }

  /** The price loop of `_process_server_types` and
      `_process_load_balancer_types`. */
  method ScanPrices(entries: seq<Json>) returns (r: Result<Scan>)
    ensures r == ScanLoop(NoScan, entries)
  {
    var st := NoScan;
    for i := 0 to |entries|
      invariant ScanLoop(st, entries[i..]) == ScanLoop(NoScan, entries)
    {
      assert entries[i..][1..] == entries[i + 1..];
      var step := ScanStep(st, entries[i]);
      if step.Err? {
        return Err(step.error);
      }
      st := step.value;
    }
    assert entries[|entries|..] == [];
    r := Ok(st);
  }

  /** The location an entry contributes. */
  function LocationOf(entry: Json): Option<Json> {
    if entry.JObj? && Truthy(Lookup(entry.fields, "location", JNull)) then Some(entry.fields["location"]) else None
  }

  /** The locations are every truthy `location`, in entry order. */
  lemma {:induction false} ScanLocations(st: Scan, entries: seq<Json>)
    requires ScanLoop(st, entries).Ok?
    ensures ScanLoop(st, entries).value.locations == st.locations + SeqFilter.FilterMap(entries, LocationOf)
    decreases |entries|
  {
    if entries != [] {
      var next := ScanStep(st, entries[0]).value;
      assert next.locations == st.locations + LocationOf(entries[0]).ToSeq();
      ScanLocations(next, entries[1..]);
      SeqFilter.FilterMapAppend([entries[0]], entries[1..], LocationOf);
      SeqFilter.FilterMapSingle(entries[0], LocationOf);
      assert [entries[0]] + entries[1..] == entries;
    }
  }

  /** `entries[i]` is the first entry having key `k`. */
  predicate FirstWithKey(entries: seq<Json>, k: string, i: int) {
    && 0 <= i < |entries| && entries[i].JObj? && k in entries[i].fields
    && forall j :: 0 <= j < i ==> !(entries[j].JObj? && k in entries[j].fields)
  }

  /** The hourly price is read from the first entry having `price_hourly`,
      and is `None` when no entry has one. */
  lemma {:induction false} HourlyFromFirst(st: Scan, entries: seq<Json>)
    requires st.hourly == JNull && ScanLoop(st, entries).Ok?
    ensures (forall j :: 0 <= j < |entries| ==> !(entries[j].JObj? && "price_hourly" in entries[j].fields)) ==>
      ScanLoop(st, entries).value.hourly == JNull
    ensures forall i :: FirstWithKey(entries, "price_hourly", i) ==>
      NetPrice(entries[i].fields["price_hourly"]) == Ok(ScanLoop(st, entries).value.hourly)
    decreases |entries|
  {
    if entries != [] {
      var next := ScanStep(st, entries[0]).value;
      var rest := entries[1..];
      if entries[0].JObj? && "price_hourly" in entries[0].fields {
        HourlyKept(next, rest);
      } else {
        HourlyFromFirst(next, rest);
        forall i | FirstWithKey(entries, "price_hourly", i)
          ensures NetPrice(entries[i].fields["price_hourly"]) == Ok(ScanLoop(st, entries).value.hourly)
        {
          assert i > 0 && rest[i - 1] == entries[i];
          forall j | 0 <= j < i - 1 ensures !(rest[j].JObj? && "price_hourly" in rest[j].fields) {
            assert rest[j] == entries[j + 1];
          }
          assert FirstWithKey(rest, "price_hourly", i - 1);
        }
        forall j | 0 <= j < |rest| ensures rest[j] == entries[j + 1] {
        }
      }
    }
  }

  lemma {:induction false} HourlyKept(st: Scan, entries: seq<Json>)
    requires st.hourly != JNull && ScanLoop(st, entries).Ok?
    ensures ScanLoop(st, entries).value.hourly == st.hourly
    decreases |entries|
  {
    if entries != [] {
      HourlyKept(ScanStep(st, entries[0]).value, entries[1..]);
    }
  }

  /** The same holds for the monthly price, independently of the hourly
      one. */
  lemma {:induction false} MonthlyFromFirst(st: Scan, entries: seq<Json>)
    requires st.monthly == JNull && ScanLoop(st, entries).Ok?
    ensures (forall j :: 0 <= j < |entries| ==> !(entries[j].JObj? && "price_monthly" in entries[j].fields)) ==>
      ScanLoop(st, entries).value.monthly == JNull
    ensures forall i :: FirstWithKey(entries, "price_monthly", i) ==>
      NetPrice(entries[i].fields["price_monthly"]) == Ok(ScanLoop(st, entries).value.monthly)
    decreases |entries|
  {
    if entries != [] {
      var next := ScanStep(st, entries[0]).value;
      var rest := entries[1..];
      if entries[0].JObj? && "price_monthly" in entries[0].fields {
        MonthlyKept(next, rest);
      } else {
        MonthlyFromFirst(next, rest);
        forall i | FirstWithKey(entries, "price_monthly", i)
          ensures NetPrice(entries[i].fields["price_monthly"]) == Ok(ScanLoop(st, entries).value.monthly)
        {
          assert i > 0 && rest[i - 1] == entries[i];
          forall j | 0 <= j < i - 1 ensures !(rest[j].JObj? && "price_monthly" in rest[j].fields) {
            assert rest[j] == entries[j + 1];
          }
          assert FirstWithKey(rest, "price_monthly", i - 1);
        }
        forall j | 0 <= j < |rest| ensures rest[j] == entries[j + 1] {
        }
      }
    }
  }

  lemma {:induction false} MonthlyKept(st: Scan, entries: seq<Json>)
    requires st.monthly != JNull && ScanLoop(st, entries).Ok?
    ensures ScanLoop(st, entries).value.monthly == st.monthly
    decreases |entries|
  {
    if entries != [] {
      MonthlyKept(ScanStep(st, entries[0]).value, entries[1..]);
    }
  }

  /** The prices of a pricing entry: scanned from its `prices` when it has
      that key, none otherwise. */
  function PricesOf(info: map<string, Json>): Result<Scan> {
    if "prices" !in info then Ok(NoScan)
    else
      match Elements(info["prices"])
      case Err(e) => Err(e)
      case Ok(entries) => ScanLoop(NoScan, entries)
  }

  method PricesOfEntry(info: map<string, Json>) returns (r: Result<Scan>)
    ensures r == PricesOf(info)
  {
    if "prices" !in info {
      return Ok(NoScan);
    }
    var entries := Elements(info["prices"]);
    if entries.Err? {
      return Err(entries.error);
    }
    r := ScanPrices(entries.value);
  }

  // ---------------------------------------------------------------------
  // Server and load balancer types

  /** The two type listings processed alike. */
  datatype Family = ServerTypes | LoadBalancerTypes {
    function Section(): string {
      match this
      case ServerTypes => "server_types"
      case LoadBalancerTypes => "load_balancer_types"
    }
  }

  function Metadata(category: string): Json {
    JObj(map["platform" := JStr("cloud"), "apiSource" := JStr("cloud_api"), "serviceCategory" := JStr(category)])
  }

  /** The record of one type, given the prices picked for it. */
  function TypeRecord(family: Family, t: map<string, Json>, prices: Scan, now: string): Json {
    match family
    case ServerTypes => ServerRecord(t, prices, now)
    case LoadBalancerTypes => LoadBalancerRecord(t, prices, now)
  }

  function ServerRecord(t: map<string, Json>, prices: Scan, now: string): Json {
    JObj(map[
      "platform" := JStr("cloud"),
      "type" := JStr("cloud-server"),
      "instanceType" := Lookup(t, "name", JNull),
      "vCPU" := Lookup(t, "cores", JNull),
      "memoryGiB" := Lookup(t, "memory", JNull),
      "diskType" := Lookup(t, "storage_type", JNull),
      "diskSizeGB" := Lookup(t, "disk", JNull),
      "priceEUR_hourly_net" := prices.hourly,
      "priceEUR_monthly_net" := prices.monthly,
      "cpuType" := Lookup(t, "cpu_type", JNull),
      "architecture" := Lookup(t, "architecture", JNull),
      "regions" := JArr(prices.locations),
      "deprecated" := Lookup(t, "deprecated", JBool(false)),
      "source" := JStr("hetzner_cloud_api"),
      "description" := Lookup(t, "description", JStr("")),
      "lastUpdated" := JStr(now),
      "hetzner_metadata" := Metadata("compute"),
      "raw" := JObj(t)
    ])
  }

  function LoadBalancerRecord(t: map<string, Json>, prices: Scan, now: string): Json {
    JObj(map[
      "platform" := JStr("cloud"),
      "type" := JStr("cloud-loadbalancer"),
      "instanceType" := Lookup(t, "name", JNull),
      "max_connections" := Lookup(t, "max_connections", JNull),
      "max_services" := Lookup(t, "max_services", JNull),
      "max_targets" := Lookup(t, "max_targets", JNull),
      "max_assigned_certificates" := Lookup(t, "max_assigned_certificates", JNull),
      "priceEUR_hourly_net" := prices.hourly,
      "priceEUR_monthly_net" := prices.monthly,
      "regions" := JArr(prices.locations),
      "deprecated" := Lookup(t, "deprecated", JBool(false)),
      "source" := JStr("hetzner_cloud_api"),
      "description" := Lookup(t, "description", JStr("")),
      "lastUpdated" := JStr(now),
      "hetzner_metadata" := Metadata("networking"),
      "raw" := JObj(t)
    ])
  }

  lemma ServerRecordName(t: map<string, Json>, prices: Scan, now: string)
    ensures var r := ServerRecord(t, prices, now).fields;
      r["instanceType"] == Lookup(t, "name", JNull) && r["raw"] == JObj(t)
  {
  }

  lemma ServerRecordPrices(t: map<string, Json>, prices: Scan, now: string)
    ensures var r := ServerRecord(t, prices, now).fields;
      r["priceEUR_hourly_net"] == prices.hourly && r["priceEUR_monthly_net"] == prices.monthly
  {
  }

  lemma ServerRecordListing(t: map<string, Json>, prices: Scan, now: string)
    ensures var r := ServerRecord(t, prices, now).fields;
      r["regions"] == JArr(prices.locations) && r["lastUpdated"] == JStr(now)
  {
  }

  lemma LoadBalancerRecordName(t: map<string, Json>, prices: Scan, now: string)
    ensures var r := LoadBalancerRecord(t, prices, now).fields;
      r["instanceType"] == Lookup(t, "name", JNull) && r["raw"] == JObj(t)
  {
  }

  lemma LoadBalancerRecordPrices(t: map<string, Json>, prices: Scan, now: string)
    ensures var r := LoadBalancerRecord(t, prices, now).fields;
      r["priceEUR_hourly_net"] == prices.hourly && r["priceEUR_monthly_net"] == prices.monthly
  {
  }

  lemma LoadBalancerRecordListing(t: map<string, Json>, prices: Scan, now: string)
    ensures var r := LoadBalancerRecord(t, prices, now).fields;
      r["regions"] == JArr(prices.locations) && r["lastUpdated"] == JStr(now)
  {
  }

  /** Both kinds of record name the type, carry the picked prices and
      locations, and keep the original type under `raw`. */
  lemma TypeRecordCarries(family: Family, t: map<string, Json>, prices: Scan, now: string)
    ensures var r := TypeRecord(family, t, prices, now).fields;
      && r["instanceType"] == Lookup(t, "name", JNull) && r["raw"] == JObj(t)
      && r["priceEUR_hourly_net"] == prices.hourly && r["priceEUR_monthly_net"] == prices.monthly
      && r["regions"] == JArr(prices.locations) && r["lastUpdated"] == JStr(now)
  {
    match family
    case ServerTypes =>
      ServerRecordName(t, prices, now);
      ServerRecordPrices(t, prices, now);
      ServerRecordListing(t, prices, now);
    case LoadBalancerTypes =>
      LoadBalancerRecordName(t, prices, now);
      LoadBalancerRecordPrices(t, prices, now);
      LoadBalancerRecordListing(t, prices, now);
  }

  /** The pricing entry joined to a type: the one indexed under its name,
      or `{}`. An unhashable name raises. */
  function PriceInfo(index: map<Json, Json>, t: map<string, Json>): Result<map<string, Json>> {
    var name := Lookup(t, "name", JNull);
    if !Hashable(name) then Err(TypeError)
    else if name in index && index[name].JObj? then Ok(index[name].fields)
    else Ok(map[])
  }

  /** The loop body for one dict: its record, or the exception that makes
      the loop skip it. */
  function TypeEntry(family: Family, index: map<Json, Json>, t: map<string, Json>, now: string): Result<Json> {
    match PriceInfo(index, t)
    case Err(e) => Err(e)
    case Ok(info) =>
      match PricesOf(info)
      case Err(e) => Err(e)
      case Ok(prices) => Ok(TypeRecord(family, t, prices, now))
  }

  function TypeOutput(family: Family, index: map<Json, Json>, now: string): Json -> Option<Json> {
    (t: Json) => if t.JObj? && TypeEntry(family, index, t.fields, now).Ok? then Some(TypeEntry(family, index, t.fields, now).value) else None
  }

  /** `_process_server_types` / `_process_load_balancer_types` on the
      listing response `data` and the pricing response `pricing`. A type
      that is not a dict makes the exception handler itself raise (it calls
      `.get` on the type), so the whole call fails. */
  function ProcessedTypes(family: Family, data: Json, pricing: Json, now: string): Result<seq<Json>> {
    if !data.JObj? then Err(AttributeError)
    else
      match PricingIndex(pricing, family.Section())
      case Err(e) => Err(e)
      case Ok(index) =>
        match Elements(Lookup(data.fields, family.Section(), JArr([])))
        case Err(e) => Err(e)
        case Ok(types) => TypeRecords(family, index, types, now)
  }

  /** The loop over the listed types: a type that is not a dict makes the
      whole call fail. */
  function TypeRecords(family: Family, index: map<Json, Json>, types: seq<Json>, now: string): Result<seq<Json>> {
    if exists i :: 0 <= i < |types| && !types[i].JObj? then Err(AttributeError)
    else Ok(SeqFilter.FilterMap(types, TypeOutput(family, index, now)))
  }

  /** The `try` block for one type. */
  method ProcessType(family: Family, index: map<Json, Json>, t: map<string, Json>, now: string) returns (r: Result<Json>)
    ensures r == TypeEntry(family, index, t, now)
    ensures TypeOutput(family, index, now)(JObj(t)) == if r.Ok? then Some(r.value) else None
  {
    var info := PriceInfo(index, t);
    if info.Err? {
      return Err(info.error);
    }
    var prices := PricesOfEntry(info.value);
    if prices.Err? {
      return Err(prices.error);
    }
    r := Ok(TypeRecord(family, t, prices.value, now));
  }

  method ProcessTypes(family: Family, data: Json, pricing: Json, now: string) returns (r: Result<seq<Json>>)
    ensures r == ProcessedTypes(family, data, pricing, now)
  {
    if !data.JObj? {
      return Err(AttributeError);
    }
    var index := PricingIndex(pricing, family.Section());
    if index.Err? {
      return Err(index.error);
    }
    var listing := Elements(Lookup(data.fields, family.Section(), JArr([])));
    if listing.Err? {
      return Err(listing.error);
    }
    r := ProcessTypeList(family, index.value, listing.value, now);
  }

  /** The `for` loop of `_process_server_types` / `_process_load_balancer_types`. */
  method ProcessTypeList(family: Family, index: map<Json, Json>, types: seq<Json>, now: string) returns (r: Result<seq<Json>>)
    ensures r == TypeRecords(family, index, types, now)
  {
    var processed: seq<Json> := [];
    var i := 0;
    while i < |types| && types[i].JObj?
      invariant 0 <= i <= |types|
      invariant forall j :: 0 <= j < i ==> types[j].JObj?
      invariant processed == SeqFilter.FilterMap(types[..i], TypeOutput(family, index, now))
    {
      processed := ProcessNext(family, index, types, i, now, processed);
      i := i + 1;
    }
    if i < |types| {
      return Err(AttributeError);
    }
    assert types[..i] == types;
    r := Ok(processed);
  }

  /** One turn of that loop: the records kept so far, extended by the one
      for `types[i]` when its `try` block succeeds. */
  method ProcessNext(family: Family, index: map<Json, Json>, types: seq<Json>, i: nat, now: string, processed: seq<Json>)
    returns (next: seq<Json>)
    requires i < |types| && types[i].JObj?
    requires processed == SeqFilter.FilterMap(types[..i], TypeOutput(family, index, now))
    ensures next == SeqFilter.FilterMap(types[..i + 1], TypeOutput(family, index, now))
  {
    SeqFilter.FilterMapSnoc(types, i, TypeOutput(family, index, now));
    assert types[i] == JObj(types[i].fields);
    var record := ProcessType(family, index, types[i].fields, now);
    var out := if record.Ok? then Some(record.value) else None;
    next := processed + out.ToSeq();
  }

  /** A type is joined to the pricing entry carrying its name; a type
      without one still gets a record, with `None` prices and no regions;
      every record keeps the original type under `raw`. */
  lemma TypeJoin(family: Family, index: map<Json, Json>, t: map<string, Json>, now: string)
    requires TypeEntry(family, index, t, now).Ok?
    ensures var r := TypeEntry(family, index, t, now).value.fields;
      var name := Lookup(t, "name", JNull);
      && r["instanceType"] == name && r["raw"] == JObj(t)
      && (name !in index ==> r["priceEUR_hourly_net"] == JNull && r["priceEUR_monthly_net"] == JNull && r["regions"] == JArr([]))
      && (name in index && index[name].JObj? ==>
            var p := PricesOf(index[name].fields).value;
            r["priceEUR_hourly_net"] == p.hourly && r["priceEUR_monthly_net"] == p.monthly && r["regions"] == JArr(p.locations))
  {
    var info := PriceInfo(index, t).value;
    TypeRecordCarries(family, t, PricesOf(info).value, now);
  }

  /** One record per type processed without an exception, in input order,
      each built from some input type. */
  lemma TypesAreFilter(family: Family, data: Json, pricing: Json, now: string)
    requires ProcessedTypes(family, data, pricing, now).Ok?
    ensures var index := PricingIndex(pricing, family.Section()).value;
      var types := Elements(Lookup(data.fields, family.Section(), JArr([]))).value;
      var out := ProcessedTypes(family, data, pricing, now).value;
      && |out| <= |types|
      && (forall i :: 0 <= i < |types| && TypeEntry(family, index, types[i].fields, now).Ok? ==>
            TypeEntry(family, index, types[i].fields, now).value in out)
      && (forall x :: x in out ==> exists i :: 0 <= i < |types| && TypeEntry(family, index, types[i].fields, now) == Ok(x))
  {
    var index := PricingIndex(pricing, family.Section()).value;
    var types := Elements(Lookup(data.fields, family.Section(), JArr([]))).value;
    var f := TypeOutput(family, index, now);
    SeqFilter.FilterMapSound(types, f);
    SeqFilter.FilterMapComplete(types, f);
    var out := ProcessedTypes(family, data, pricing, now).value;
    forall i | 0 <= i < |types| && TypeEntry(family, index, types[i].fields, now).Ok?
      ensures TypeEntry(family, index, types[i].fields, now).value in out
    {
      assert f(types[i]).Some?;
    }
    forall x | x in out ensures exists i :: 0 <= i < |types| && TypeEntry(family, index, types[i].fields, now) == Ok(x) {
      var i :| 0 <= i < |types| && f(types[i]) == Some(x);
    }
  }

  // ---------------------------------------------------------------------
  // Volume and floating IP pricing

  /** The two per-location services of `_process_pricing_services`. */
  datatype Service = Volume | FloatingIp {
    function Key(): string {
      match this
      case Volume => "volume"
      case FloatingIp => "floating_ip"
    }
  }

  /** `float(entry.get(key, {}).get('net', 0))`. */
  function EntryPrice(e: Json, key: string): Result<real> {
    match GetNested(e, key, "net", JInt(0))
    case Err(err) => Err(err)
    case Ok(v) => Float(v)
  }

  /** The record of one pricing entry, or `None` when reading it raises
      (the entry is then skipped). */
  function ServiceEntry(service: Service, now: string, e: Json): Option<Json> {
    if !e.JObj? then None
    else
      var hourly := EntryPrice(e, "price_hourly");
      var monthly := EntryPrice(e, "price_monthly");
      if hourly.Err? || monthly.Err? then None
      else Some(ServiceFields(service, Lookup(e.fields, "location", JNull), hourly.value, monthly.value, now))
  }

  function ServiceRecord(service: Service, now: string): Json -> Option<Json> {
    (e: Json) => ServiceEntry(service, now, e)
  }

  /** The regions of a per-location record: its location alone, or none. */
  function LocationRegions(location: Json): Json {
    JArr(if Truthy(location) then [location] else [])
  }

  function ServiceFields(service: Service, location: Json, hourly: real, monthly: real, now: string): Json {
    match service
    case Volume =>
      JObj(map[
        "platform" := JStr("cloud"), "type" := JStr("cloud-volume"),
        "instanceType" := JStr("Block Storage"), "unit" := JStr("per GB/month"),
        "location" := location, "priceEUR_hourly_net" := JReal(hourly), "priceEUR_monthly_net" := JReal(monthly),
        "regions" := LocationRegions(location), "source" := JStr("hetzner_cloud_api"),
        "description" := JStr("Block storage volume pricing per GB"),
        "lastUpdated" := JStr(now), "hetzner_metadata" := Metadata("storage")])
    case FloatingIp =>
      JObj(map[
        "platform" := JStr("cloud"), "type" := JStr("cloud-floating-ip"),
        "instanceType" := JStr("Floating IP"),
        "location" := location, "priceEUR_hourly_net" := JReal(hourly), "priceEUR_monthly_net" := JReal(monthly),
        "regions" := LocationRegions(location), "source" := JStr("hetzner_cloud_api"),
        "description" := JStr("Floating IP pricing"),
        "lastUpdated" := JStr(now), "hetzner_metadata" := Metadata("networking")])
  }

  /** The records of one service: only a list-valued section is read. */
  function ServiceRecords(service: Service, pricing: Json, now: string): Result<seq<Json>> {
    match Has(pricing, service.Key())
    case Err(e) => Err(e)
    case Ok(present) =>
      if !present then Ok([])
      else
        match Index(pricing, service.Key())
        case Err(e) => Err(e)
        case Ok(v) => Ok(if v.JArr? then SeqFilter.FilterMap(v.items, ServiceRecord(service, now)) else [])
  }

  /** `_process_pricing_services`: the volume records, then the floating IP
      records. */
  function PricingServices(data: Json, now: string): Result<seq<Json>> {
    if !data.JObj? then Err(AttributeError)
    else
      var pricing := Lookup(data.fields, "pricing", JObj(map[]));
      match ServiceRecords(Volume, pricing, now)
      case Err(e) => Err(e)
      case Ok(volumes) =>
        match ServiceRecords(FloatingIp, pricing, now)
        case Err(e) => Err(e)
        case Ok(ips) => Ok(volumes + ips)
  }

  /** The loop over one service's entries. */
  method CollectService(service: Service, entries: seq<Json>, now: string) returns (records: seq<Json>)
    ensures records == SeqFilter.FilterMap(entries, ServiceRecord(service, now))
  {
    records := [];
    for i := 0 to |entries|
      invariant records == SeqFilter.FilterMap(entries[..i], ServiceRecord(service, now))
    {
      assert entries[..i + 1][..i] == entries[..i];
      var record := ServiceRecord(service, now)(entries[i]);
      if record.Some? {
        records := records + [record.value];
      }
    }
    assert entries[..|entries|] == entries;
  }

  /** One `if` block of `_process_pricing_services`. */
  method CollectSection(service: Service, pricing: Json, now: string) returns (r: Result<seq<Json>>)
    ensures r == ServiceRecords(service, pricing, now)
  {
    var present := Has(pricing, service.Key());
    if present.Err? {
      return Err(present.error);
    }
    if !present.value {
      return Ok([]);
    }
    var section := Index(pricing, service.Key());
    if section.Err? {
      return Err(section.error);
    }
    if !section.value.JArr? {
      return Ok([]);
    }
    var records := CollectService(service, section.value.items, now);
    r := Ok(records);
  }

  /** `_process_pricing_services`: the volume block, then the floating IP
      block. */
  method ProcessPricingServices(data: Json, now: string) returns (r: Result<seq<Json>>)
    ensures r == PricingServices(data, now)
  {
    if !data.JObj? {
      return Err(AttributeError);
    }
    var pricing := Lookup(data.fields, "pricing", JObj(map[]));
    var volumes := CollectSection(Volume, pricing, now);
    if volumes.Err? {
      return Err(volumes.error);
    }
    var ips := CollectSection(FloatingIp, pricing, now);
    if ips.Err? {
      return Err(ips.error);
    }
    r := Ok(volumes.value + ips.value);
  }

  /** Each readable entry gives one record whose `regions` is its
      location alone, or empty without one, and whose prices are the
      entry's net prices. */
  lemma ServiceFieldsPlace(service: Service, location: Json, hourly: real, monthly: real, now: string)
    ensures var r := ServiceFields(service, location, hourly, monthly, now).fields;
      r["location"] == location && r["regions"] == LocationRegions(location)
  {
    match service
    case Volume =>
    case FloatingIp =>
  }

  lemma ServiceFieldsPrices(service: Service, location: Json, hourly: real, monthly: real, now: string)
    ensures var r := ServiceFields(service, location, hourly, monthly, now).fields;
      r["priceEUR_hourly_net"] == JReal(hourly) && r["priceEUR_monthly_net"] == JReal(monthly)
  {
    match service
    case Volume =>
    case FloatingIp =>
  }

  lemma ServiceRegions(service: Service, e: Json, now: string)
    requires ServiceRecord(service, now)(e).Some?
    ensures var r := ServiceRecord(service, now)(e).value.fields;
      var location := Lookup(e.fields, "location", JNull);
      && r["location"] == location
      && r["regions"] == JArr(if Truthy(location) then [location] else [])
      && r["priceEUR_hourly_net"] == JReal(EntryPrice(e, "price_hourly").value)
      && r["priceEUR_monthly_net"] == JReal(EntryPrice(e, "price_monthly").value)
  {
    var location := Lookup(e.fields, "location", JNull);
    var h, m := EntryPrice(e, "price_hourly").value, EntryPrice(e, "price_monthly").value;
    ServiceFieldsPlace(service, location, h, m, now);
    ServiceFieldsPrices(service, location, h, m, now);
  }

  /** When every entry of both sections is a readable dict, there is one
      record per entry: the volumes first, then the floating IPs. */
  lemma ServicesOnePerEntry(data: Json, now: string, volumes: seq<Json>, ips: seq<Json>)
    requires data.JObj? && "pricing" in data.fields && data.fields["pricing"].JObj?
    requires var p := data.fields["pricing"].fields;
      "volume" in p && p["volume"] == JArr(volumes) && "floating_ip" in p && p["floating_ip"] == JArr(ips)
    requires forall e :: e in volumes ==> ServiceRecord(Volume, now)(e).Some?
    requires forall e :: e in ips ==> ServiceRecord(FloatingIp, now)(e).Some?
    ensures PricingServices(data, now).Ok?
    ensures |PricingServices(data, now).value| == |volumes| + |ips|
  {
    AllKeptLength(volumes, ServiceRecord(Volume, now));
    AllKeptLength(ips, ServiceRecord(FloatingIp, now));
  }

  lemma {:induction false} AllKeptLength(s: seq<Json>, f: Json -> Option<Json>)
    requires forall e :: e in s ==> f(e).Some?
    ensures |SeqFilter.FilterMap(s, f)| == |s|
  {
    if s != [] {
      assert forall e :: e in s[..|s| - 1] ==> e in s;
      assert s[|s| - 1] in s;
      AllKeptLength(s[..|s| - 1], f);
    }
  }

  // ---------------------------------------------------------------------
  // Robot API products

  /** Hours in the thirty-day month the hourly price is derived with. */
  const HoursPerMonth: real := 720.0

  /** The monthly net price of a product: `float(price['net'])`, or 0
      when the product has no truthy `price`. */
  function ProductMonthly(product: map<string, Json>): Result<Json> {
    var price := Lookup(product, "price", JObj(map[]));
    if !Truthy(price) then Ok(JInt(0))
    else if !price.JObj? then Err(AttributeError)
    else
      match Float(Lookup(price.fields, "net", JInt(0)))
      case Err(e) => Err(e)
      case Ok(v) => Ok(JReal(v))
  }

  /** The hourly price: a 720th of the monthly price when positive,
      otherwise 0. */
  function ProductHourlyPrice(monthly: Json): Json {
    if monthly.JReal? && monthly.r > 0.0 then JReal(monthly.r / HoursPerMonth) else JInt(0)
  }

  /** The record of one product, or `None` when reading it raises. */
  function ProductEntry(now: string, product: Json): Option<Json> {
    if !product.JObj? || ProductMonthly(product.fields).Err? then None
    else Some(ProductFields(product, ProductMonthly(product.fields).value, now))
  }

  function ProductRecord(now: string): Json -> Option<Json> {
    (product: Json) => ProductEntry(now, product)
  }

  function ProductFields(product: Json, monthly: Json, now: string): Json
    requires product.JObj?
  {
    JObj(map[
      "platform" := JStr("dedicated"),
      "type" := JStr("dedicated-server"),
      "instanceType" := Lookup(product.fields, "name", JStr("")),
      "description" := Lookup(product.fields, "description", JStr("")),
      "priceEUR_monthly_net" := monthly,
      "priceEUR_hourly_net" := ProductHourlyPrice(monthly),
      "regions" := JArr([JStr("Germany")]),
      "source" := JStr("hetzner_robot_api"),
      "lastUpdated" := JStr(now),
      "hetzner_metadata" := JObj(map["platform" := JStr("dedicated"), "apiSource" := JStr("robot_api"),
                                     "serviceCategory" := JStr("dedicated_compute")]),
      "raw" := product
    ])
  }

  /** `_collect_robot_api_servers` on the products response: nothing for a
      falsy or non-dict response or a non-list `product`; otherwise one
      record per readable product. It never raises. */
  function RobotProducts(response: Json, now: string): seq<Json> {
    if !Truthy(response) || !response.JObj? then []
    else
      var products := Lookup(response.fields, "product", JArr([]));
      if products.JArr? then SeqFilter.FilterMap(products.items, ProductRecord(now)) else []
  }

  method CollectRobotApiServers(response: Json, now: string) returns (servers: seq<Json>)
    ensures servers == RobotProducts(response, now)
  {
    servers := [];
    if !Truthy(response) || !response.JObj? {
      return;
    }
    var products := Lookup(response.fields, "product", JArr([]));
    if !products.JArr? {
      return;
    }
    var items := products.items;
    for i := 0 to |items|
      invariant servers == SeqFilter.FilterMap(items[..i], ProductRecord(now))
    {
      assert items[..i + 1][..i] == items[..i];
      var record := ProductRecord(now)(items[i]);
      if record.Some? {
        servers := servers + [record.value];
      }
    }
    assert items[..|items|] == items;
  }

  /** Thirty days of the hourly price make the monthly price when that is
      positive; otherwise the hourly price is 0. */
  lemma ProductHourly(product: Json, now: string)
    requires ProductRecord(now)(product).Some?
    ensures var r := ProductRecord(now)(product).value.fields;
      var m := r["priceEUR_monthly_net"];
      && (m.JReal? || m == JInt(0))
      && (m.JReal? && m.r > 0.0 ==> r["priceEUR_hourly_net"].JReal? && r["priceEUR_hourly_net"].r * HoursPerMonth == m.r)
      && (!(m.JReal? && m.r > 0.0) ==> r["priceEUR_hourly_net"] == JInt(0))
      && r["regions"] == JArr([JStr("Germany")]) && r["raw"] == product
  {
    var monthly := ProductMonthly(product.fields).value;
    var r := ProductFields(product, monthly, now).fields;
    assert r["priceEUR_monthly_net"] == monthly && r["priceEUR_hourly_net"] == ProductHourlyPrice(monthly);
    assert r["regions"] == JArr([JStr("Germany")]) && r["raw"] == product;
  }
}
