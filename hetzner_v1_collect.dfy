/** The record-building side of the first Hetzner collector
    (`scripts/fetch_hetzner.py`): the response shape check, the join of
    server and load balancer types with their pricing by name, the
    first-price selection, the per-location volume, floating IP and network
    entries, and the price-text cleaning. Every exception a loop body
    catches becomes a skipped item; one that escapes becomes `Err`. */
module HetznerV1Collect {

  import opened Wrappers
  import opened PyJson
  import PyText
  import SeqFilter

  /** `validate_api_response`: a dict holding every expected field. */
  method ValidateApiResponse(data: Json, expected: seq<string>) returns (ok: bool)
    ensures ok <==> data.JObj? && forall f :: f in expected ==> f in data.fields
  {
    if !data.JObj? {
      return false;
    }
    for i := 0 to |expected|
      invariant forall j :: 0 <= j < i ==> expected[j] in data.fields
    {
      if expected[i] !in data.fields {
        return false;
      }
    }
    return true;
  }

  // ---------------------------------------------------------------------
  // Joining types with their pricing by name

  /** `{p["name"]: p for p in items}`: a later entry with the same name
      replaces an earlier one. An entry that is not a dict with a hashable
      name raises. */
  function NameIndex(items: seq<Json>): Result<map<Json, Json>> {
    if items == [] then Ok(map[])
    else
      match NameIndex(items[..|items| - 1])
      case Err(e) => Err(e)
      case Ok(m) =>
        var p := items[|items| - 1];
        if !p.JObj? then Err(TypeError)
        else if "name" !in p.fields then Err(KeyError)
        else if !Hashable(p.fields["name"]) then Err(TypeError)
        else Ok(m[p.fields["name"] := p])
  }

  /** An entry carrying the name `k`. */
  predicate Named(p: Json, k: Json) {
    p.JObj? && "name" in p.fields && p.fields["name"] == k
  }

  /** `items[i]` is the last entry carrying the name `k`. */
  predicate LastNamed(items: seq<Json>, i: int, k: Json) {
    0 <= i < |items| && Named(items[i], k) && forall j :: i < j < |items| ==> !Named(items[j], k)
  }

  /** Every name is indexed, to the last entry carrying it; nothing else
      is indexed. */
  lemma NameIndexIsLastByName(items: seq<Json>)
    requires NameIndex(items).Ok?
    ensures forall k :: k in NameIndex(items).value <==> exists i :: 0 <= i < |items| && Named(items[i], k)
    ensures forall k :: k in NameIndex(items).value ==>
      exists i :: LastNamed(items, i, k) && items[i] == NameIndex(items).value[k]
  {
    NameIndexKeys(items);
    NameIndexLast(items);
  }

  lemma {:induction false} NameIndexKeys(items: seq<Json>)
    requires NameIndex(items).Ok?
    ensures forall k :: k in NameIndex(items).value <==> exists i :: 0 <= i < |items| && Named(items[i], k)
  {
    if items != [] {
      var n := |items| - 1;
      var init := items[..n];
      assert forall i :: 0 <= i < n ==> items[i] == init[i];
      NameIndexKeys(init);
      var m := NameIndex(items).value;
      var name := items[n].fields["name"];
      assert m == NameIndex(init).value[name := items[n]];
      forall k ensures k in m <==> exists i :: 0 <= i < |items| && Named(items[i], k) {
        if k in NameIndex(init).value {
          var i :| 0 <= i < |init| && Named(init[i], k);
          assert Named(items[i], k);
        } else if k == name {
          assert Named(items[n], k);
        } else {
          assert forall i :: 0 <= i < |items| ==> !Named(items[i], k);
        }
      }
    }
  }

  lemma {:induction false} NameIndexLast(items: seq<Json>)
    requires NameIndex(items).Ok?
    ensures forall k :: k in NameIndex(items).value ==>
      exists i :: LastNamed(items, i, k) && items[i] == NameIndex(items).value[k]
  {
    if items != [] {
      var n := |items| - 1;
      var init := items[..n];
      assert forall i :: 0 <= i < n ==> items[i] == init[i];
      NameIndexLast(init);
      var old_m := NameIndex(init).value;
      var name := items[n].fields["name"];
      var m := NameIndex(items).value;
      assert m == old_m[name := items[n]];
      forall k | k in m ensures exists i :: LastNamed(items, i, k) && items[i] == m[k] {
        if k == name {
          assert LastNamed(items, n, k);
        } else {
          var i :| LastNamed(init, i, k) && init[i] == old_m[k];
          assert !Named(items[n], k);
          assert LastNamed(items, i, k);
        }
      }
    }
  }

  /** The `price_map` of a pricing section: empty when the pricing data
      lacks the section; an error when the section cannot be indexed. */
  function PriceMap(pricing: Json, section: string): Result<map<Json, Json>> {
    match Has(pricing, section)
    case Err(e) => Err(e)
    case Ok(present) =>
      if !present then Ok(map[])
      else
        match Index(pricing, section)
        case Err(e) => Err(e)
        case Ok(v) =>
          match v
          case JArr(items) => NameIndex(items)
          case JObj(f) => if f == map[] then Ok(map[]) else Err(TypeError)
          case JStr(s) => if s == [] then Ok(map[]) else Err(TypeError)
          case _ => Err(TypeError)
  }

  // ---------------------------------------------------------------------
  // First-price selection

  /** The loop state: the EUR hourly and monthly net prices picked so far
      (`JNull` for `None`) and the locations seen. */
  datatype Primary = Primary(hourly: Json, monthly: Json, locations: seq<Json>)

  const NoPrice := Primary(JNull, JNull, [])

  /** The location an entry contributes: its `location` when truthy. */
  function LocationOf(d: Json): Option<Json> {
    if d.JObj? && "location" in d.fields && Truthy(d.fields["location"]) then Some(d.fields["location"]) else None
  }

  /** `price_detail.get("price_hourly", {}).get("net")` and the same for
      the monthly price. */
  function NetPrices(d: Json): Result<(Json, Json)> {
    match GetNested(d, "price_hourly", "net", JNull)
    case Err(e) => Err(e)
    case Ok(h) =>
      match GetNested(d, "price_monthly", "net", JNull)
      case Err(e) => Err(e)
      case Ok(m) => Ok((h, m))
  }

  /** `float(x)` when `x` is truthy, otherwise `keep`. */
  function FloatIfTruthy(x: Json, keep: Json): (r: Result<Json>)
    ensures r.Ok? && Truthy(x) ==> r.value.JReal?
    ensures !Truthy(x) ==> r == Ok(keep)
  {
    if !Truthy(x) then Ok(keep)
    else
      match Float(x)
      case Ok(v) => Ok(JReal(v))
      case Err(e) => Err(e)
  }

  /** One pass of the price loop. The location is collected from every
      entry; prices are read only while no hourly price has been found,
      and a truthy monthly price overwrites the one held. */
  function PriceStep(st: Primary, d: Json): Result<Primary> {
    if !d.JObj? then Err(AttributeError)
    else
      var locs := if LocationOf(d).Some? then st.locations + [LocationOf(d).value] else st.locations;
      if st.hourly != JNull then Ok(st.(locations := locs))
      else
        match NetPrices(d)
        case Err(e) => Err(e)
        case Ok(prices) =>
          match FloatIfTruthy(prices.0, JNull)
          case Err(e) => Err(e)
          case Ok(hourly) =>
            match FloatIfTruthy(prices.1, st.monthly)
            case Err(e) => Err(e)
            case Ok(monthly) => Ok(Primary(hourly, monthly, locs))
  }

  /** The price loop over the remaining entries from state `st`. */
  function PriceLoop(st: Primary, details: seq<Json>): Result<Primary>
    decreases |details|
  {
    if details == [] then Ok(st)
    else
      match PriceStep(st, details[0])
      case Err(e) => Err(e)
      case Ok(next) => PriceLoop(next, details[1..])
  }

  /** The price loop of `process_server_types_with_pricing` and
      `process_load_balancer_types_with_pricing`. */
  method PickPrimaryPrices(details: seq<Json>) returns (r: Result<Primary>)
    ensures r == PriceLoop(NoPrice, details)
  {
    var st := NoPrice;
    for i := 0 to |details|
      invariant PriceLoop(st, details[i..]) == PriceLoop(NoPrice, details)
    {
      assert details[i..][1..] == details[i + 1..];
      var step := PriceStep(st, details[i]);
      if step.Err? {
        return Err(step.error);
      }
      st := step.value;
    }
    assert details[|details|..] == [];
    r := Ok(st);
  }

  /** One pass adds the entry's location, if any, to those collected. */
  lemma PriceStepLocations(st: Primary, d: Json)
    requires PriceStep(st, d).Ok?
    ensures PriceStep(st, d).value.locations == st.locations + LocationOf(d).ToSeq()
  {
  }

  /** The locations are every truthy `location`, in entry order. */
  lemma {:induction false} PriceLoopLocations(st: Primary, details: seq<Json>)
    requires PriceLoop(st, details).Ok?
    ensures PriceLoop(st, details).value.locations == st.locations + SeqFilter.FilterMap(details, LocationOf)
    decreases |details|
  {
    if details != [] {
      var next := PriceStep(st, details[0]).value;
      PriceStepLocations(st, details[0]);
      PriceLoopLocations(next, details[1..]);
      SeqFilter.FilterMapCons(details, LocationOf);
      assert next.locations + SeqFilter.FilterMap(details[1..], LocationOf)
        == st.locations + SeqFilter.FilterMap(details, LocationOf);
    }
  }

  /** Once an hourly price is held, later entries change neither price. */
  lemma {:induction false} PriceLoopKeepsFound(st: Primary, details: seq<Json>)
    requires st.hourly != JNull && PriceLoop(st, details).Ok?
    ensures PriceLoop(st, details).value.hourly == st.hourly
    ensures PriceLoop(st, details).value.monthly == st.monthly
    decreases |details|
  {
    if details != [] {
      PriceLoopKeepsFound(PriceStep(st, details[0]).value, details[1..]);
    }
  }

  /** An entry offering a truthy hourly price. */
  predicate OffersHourly(d: Json) {
    NetPrices(d).Ok? && Truthy(NetPrices(d).value.0)
  }

  /** The monthly price held after the entries `details`, read while no
      hourly price is found: the last truthy monthly price among them. */
  function LastMonthly(details: seq<Json>, held: Json): Json
    decreases |details|
  {
    if details == [] then held
    else
      var m := if NetPrices(details[0]).Ok? then NetPrices(details[0]).value.1 else JNull;
      LastMonthly(details[1..], if Truthy(m) && Float(m).Ok? then JReal(Float(m).value) else held)
  }

  /** `details[i]` is the first entry offering an hourly price. */
  predicate FirstOffer(details: seq<Json>, i: int) {
    0 <= i < |details| && OffersHourly(details[i]) && forall j :: 0 <= j < i ==> !OffersHourly(details[j])
  }

  /** Without any hourly price, the hourly price stays `None` and the
      monthly price is the last truthy one of all entries. */
  lemma {:induction false} NoOfferKeepsLastMonthly(st: Primary, details: seq<Json>)
    requires st.hourly == JNull && PriceLoop(st, details).Ok?
    requires forall i :: 0 <= i < |details| ==> !OffersHourly(details[i])
    ensures PriceLoop(st, details).value.hourly == JNull
    ensures PriceLoop(st, details).value.monthly == LastMonthly(details, st.monthly)
    decreases |details|
  {
    if details != [] {
      assert !OffersHourly(details[0]);
      var next := PriceStep(st, details[0]).value;
      var rest := details[1..];
      forall i | 0 <= i < |rest| ensures !OffersHourly(rest[i]) {
        assert rest[i] == details[i + 1];
      }
      NoOfferKeepsLastMonthly(next, rest);
    }
  }

  /** The hourly price comes from the first entry offering one; the monthly
      price is the last truthy one up to and including that entry, so the
      monthly price of an earlier entry survives when that entry has
      none. */
  lemma {:induction false} HourlyFromFirstOffer(st: Primary, details: seq<Json>, i: int)
    requires st.hourly == JNull && PriceLoop(st, details).Ok? && FirstOffer(details, i)
    ensures PriceLoop(st, details).value.hourly.JReal?
    ensures Float(NetPrices(details[i]).value.0) == Ok(PriceLoop(st, details).value.hourly.r)
    ensures PriceLoop(st, details).value.monthly == LastMonthly(details[..i + 1], st.monthly)
    decreases i
  {
    var next := PriceStep(st, details[0]).value;
    var rest := details[1..];
    if i == 0 {
      assert details[..1] == [details[0]];
      PriceLoopKeepsFound(next, rest);
    } else {
      assert !OffersHourly(details[0]);
      assert rest[i - 1] == details[i];
      forall j | 0 <= j < i - 1 ensures !OffersHourly(rest[j]) {
        assert rest[j] == details[j + 1];
      }
      assert FirstOffer(rest, i - 1);
      HourlyFromFirstOffer(next, rest, i - 1);
      assert details[..i + 1][1..] == rest[..i];
    }
  }

  /** The prices of a type's pricing entry (`price_info`): picked from its
      `prices` list when that is truthy, none otherwise. */
  function PricesOf(info: map<string, Json>): Result<Primary> {
    var prices := Lookup(info, "prices", JNull);
    if !Truthy(prices) then Ok(NoPrice)
    else if prices.JArr? then PriceLoop(NoPrice, prices.items)
    else Err(TypeError)
  }

  /** The pricing entry joined to a name: the indexed one, or `{}`. */
  function PriceInfo(priceMap: map<Json, Json>, name: Json): map<string, Json> {
    if name in priceMap && priceMap[name].JObj? then priceMap[name].fields else map[]
  }

  // ---------------------------------------------------------------------
  // Server types

  /** The keys a server type must have. */
  const ServerTypeKeys: set<string> :=
    {"name", "cores", "memory", "storage_type", "disk", "cpu_type", "architecture", "deprecated"}

  /** `trafficOutTB`: the included traffic divided by `1024**3` when
      truthy, otherwise `None`. */
  function TrafficOut(m: map<string, Json>): Result<Json> {
    var t := Lookup(m, "included_traffic", JNull);
    if !Truthy(t) then Ok(JNull)
    else if IsNumber(t) then Ok(JReal(NumValue(t) / 1073741824.0))
    else Err(TypeError)
  }

  /** The record built for a server type once its prices are picked. */
  function ServerTypeFields(m: map<string, Json>, info: map<string, Json>, primary: Primary): Result<Json> {
    if !(forall k :: k in ServerTypeKeys ==> k in m) then Err(KeyError)
    else
      match TrafficOut(m)
      case Err(e) => Err(e)
      case Ok(traffic) =>
        Ok(JObj(map[
          "type" := JStr("cloud-api"),
          "instanceType" := m["name"],
          "vCPU" := m["cores"],
          "memoryGiB" := m["memory"],
          "diskType" := m["storage_type"],
          "diskSizeGB" := m["disk"],
          "priceEUR_hourly_net" := primary.hourly,
          "priceEUR_monthly_net" := primary.monthly,
          "trafficOutTB" := traffic,
          "cpuType" := m["cpu_type"],
          "architecture" := m["architecture"],
          "locations" := JArr(primary.locations),
          "deprecated" := m["deprecated"],
          "source" := JStr("api_enhanced"),
          "description" := Lookup(m, "description", JStr("")),
          "created" := Lookup(m, "created", JNull),
          "api_id" := Lookup(m, "id", JNull),
          "pricing_details" := Lookup(info, "prices", JArr([]))
        ]))
  }

  /** The loop body of `process_server_types_with_pricing` for one dict:
      its record, or the exception that makes the loop skip it. */
  function ServerTypeRecord(m: map<string, Json>, priceMap: map<Json, Json>): Result<Json> {
    if "name" !in m then Err(KeyError)
    else if !Hashable(m["name"]) then Err(TypeError)
    else
      var info := PriceInfo(priceMap, m["name"]);
      match PricesOf(info)
      case Err(e) => Err(e)
      case Ok(primary) => ServerTypeFields(m, info, primary)
  }

  /** The record a server type contributes, if any. */
  function ServerTypeOutput(priceMap: map<Json, Json>): Json -> Option<Json> {
    (t: Json) => if t.JObj? && ServerTypeRecord(t.fields, priceMap).Ok? then Some(ServerTypeRecord(t.fields, priceMap).value) else None
  }

  /** The result of `process_server_types_with_pricing`. A type that is not
      a dict makes the exception handler itself raise (it calls `.get` on
      the type), so the whole call fails. */
  function ServerTypesWithPricing(types: seq<Json>, pricing: Json): Result<seq<Json>> {
    match PriceMap(pricing, "server_types")
    case Err(e) => Err(e)
    case Ok(pm) =>
      if exists i :: 0 <= i < |types| && !types[i].JObj? then Err(AttributeError)
      else Ok(SeqFilter.FilterMap(types, ServerTypeOutput(pm)))
  }

  /** The price loop for a type's pricing entry. */
  method PricesOfEntry(info: map<string, Json>) returns (r: Result<Primary>)
    ensures r == PricesOf(info)
  {
    var prices := Lookup(info, "prices", JNull);
    if !Truthy(prices) {
      return Ok(NoPrice);
    }
    if !prices.JArr? {
      return Err(TypeError);
    }
    r := PickPrimaryPrices(prices.items);
  }

  /** The loop body of `process_server_types_with_pricing` for the dict
      `types[i]`: the records kept so far, extended by its record when it
      has one. */
  method ServerTypeStep(types: seq<Json>, i: nat, priceMap: map<Json, Json>, processed: seq<Json>) returns (next: seq<Json>)
    requires i < |types| && types[i].JObj?
    requires processed == SeqFilter.FilterMap(types[..i], ServerTypeOutput(priceMap))
    ensures next == SeqFilter.FilterMap(types[..i + 1], ServerTypeOutput(priceMap))
  {
    var m := types[i].fields;
    var out := None;
    if "name" in m && Hashable(m["name"]) {
      var info := PriceInfo(priceMap, m["name"]);
      var primary := PricesOfEntry(info);
      if primary.Ok? {
        var record := ServerTypeFields(m, info, primary.value);
        if record.Ok? {
          out := Some(record.value);
        }
      }
    }
    assert out == ServerTypeOutput(priceMap)(types[i]);
    SeqFilter.FilterMapSnoc(types, i, ServerTypeOutput(priceMap));
    next := processed + out.ToSeq();
  }

  /** `process_server_types_with_pricing`. */
  method ProcessServerTypesWithPricing(types: seq<Json>, pricing: Json) returns (r: Result<seq<Json>>)
    ensures r == ServerTypesWithPricing(types, pricing)
  {
    var pm := PriceMap(pricing, "server_types");
    if pm.Err? {
      return Err(pm.error);
    }
    var processed: seq<Json> := [];
    var i := 0;
    while i < |types| && types[i].JObj?
      invariant i <= |types|
      invariant forall j :: 0 <= j < i ==> types[j].JObj?
      invariant processed == SeqFilter.FilterMap(types[..i], ServerTypeOutput(pm.value))
    {
      processed := ServerTypeStep(types, i, pm.value, processed);
      i := i + 1;
    }
    if i < |types| {
      r := Err(AttributeError);
    } else {
      assert types[..i] == types;
      r := Ok(processed);
    }
  }

  /** The name and prices a server-type record carries. */
  lemma ServerTypeFieldsName(m: map<string, Json>, info: map<string, Json>, primary: Primary)
    requires ServerTypeFields(m, info, primary).Ok?
    ensures ServerTypeFields(m, info, primary).value.fields["instanceType"] == m["name"]
    ensures ServerTypeFields(m, info, primary).value.fields["priceEUR_hourly_net"] == primary.hourly
  {
  }

  lemma ServerTypeFieldsRest(m: map<string, Json>, info: map<string, Json>, primary: Primary)
    requires ServerTypeFields(m, info, primary).Ok?
    ensures ServerTypeFields(m, info, primary).value.fields["priceEUR_monthly_net"] == primary.monthly
    ensures ServerTypeFields(m, info, primary).value.fields["locations"] == JArr(primary.locations)
  {
  }

  /** The join is by exact name: a type without a pricing entry still gets
      a record, with `None` prices and no locations; one with an entry
      gets the prices and locations picked from it. */
  lemma ServerTypeJoin(m: map<string, Json>, priceMap: map<Json, Json>)
    requires ServerTypeRecord(m, priceMap).Ok?
    ensures var r := ServerTypeRecord(m, priceMap).value.fields;
      && r["instanceType"] == m["name"]
      && (m["name"] !in priceMap ==>
            r["priceEUR_hourly_net"] == JNull && r["priceEUR_monthly_net"] == JNull && r["locations"] == JArr([]))
      && (m["name"] in priceMap && priceMap[m["name"]].JObj? ==>
            var p := PricesOf(priceMap[m["name"]].fields).value;
            r["priceEUR_hourly_net"] == p.hourly && r["priceEUR_monthly_net"] == p.monthly &&
            r["locations"] == JArr(p.locations))
  {
    var info := PriceInfo(priceMap, m["name"]);
    var primary := PricesOf(info).value;
    ServerTypeFieldsName(m, info, primary);
    ServerTypeFieldsRest(m, info, primary);
    if m["name"] !in priceMap {
      assert info == map[];
      assert primary == NoPrice;
    }
  }

  /** A type without every required key, or whose pricing cannot be
      read, is skipped; it is never given a partial record. */
  lemma ServerTypeNeedsKeys(m: map<string, Json>, priceMap: map<Json, Json>)
    ensures ServerTypeRecord(m, priceMap).Ok? ==> forall k :: k in ServerTypeKeys ==> k in m
  {
  }

  /** One record per server type that is processed without an exception,
      in input order; each is built from some input type. */
  lemma ServerTypesAreFilter(types: seq<Json>, pricing: Json)
    requires ServerTypesWithPricing(types, pricing).Ok?
    ensures var pm := PriceMap(pricing, "server_types").value;
      var out := ServerTypesWithPricing(types, pricing).value;
      && |out| <= |types|
      && (forall i :: 0 <= i < |types| && ServerTypeRecord(types[i].fields, pm).Ok? ==>
            ServerTypeRecord(types[i].fields, pm).value in out)
      && (forall x :: x in out ==> exists i :: 0 <= i < |types| && ServerTypeRecord(types[i].fields, pm) == Ok(x))
  {
    var pm := PriceMap(pricing, "server_types").value;
    var f := ServerTypeOutput(pm);
    SeqFilter.FilterMapSound(types, f);
    SeqFilter.FilterMapComplete(types, f);
    var out := ServerTypesWithPricing(types, pricing).value;
    forall i | 0 <= i < |types| && ServerTypeRecord(types[i].fields, pm).Ok?
      ensures ServerTypeRecord(types[i].fields, pm).value in out
    {
      assert f(types[i]).Some?;
    }
    forall x | x in out ensures exists i :: 0 <= i < |types| && ServerTypeRecord(types[i].fields, pm) == Ok(x) {
      var i :| 0 <= i < |types| && f(types[i]) == Some(x);
    }
  }

  // ---------------------------------------------------------------------
  // Load balancer types

  /** The loop body of `process_load_balancer_types_with_pricing` for one
      dict; only `name` is required. */
  function LoadBalancerRecord(m: map<string, Json>, priceMap: map<Json, Json>): Result<Json> {
    if "name" !in m then Err(KeyError)
    else if !Hashable(m["name"]) then Err(TypeError)
    else
      var info := PriceInfo(priceMap, m["name"]);
      match PricesOf(info)
      case Err(e) => Err(e)
      case Ok(primary) => Ok(LoadBalancerFields(m, primary))
  }

  function LoadBalancerFields(m: map<string, Json>, primary: Primary): Json
    requires "name" in m
  {
    JObj(map[
      "type" := JStr("load-balancer"),
      "instanceType" := m["name"],
      "maxConnections" := Lookup(m, "max_connections", JNull),
      "maxTargets" := Lookup(m, "max_targets", JNull),
      "maxServices" := Lookup(m, "max_services", JNull),
      "maxAssignedCertificates" := Lookup(m, "max_assigned_certificates", JNull),
      "priceEUR_hourly_net" := primary.hourly,
      "priceEUR_monthly_net" := primary.monthly,
      "locations" := JArr(primary.locations),
      "deprecated" := Lookup(m, "deprecated", JBool(false)),
      "source" := JStr("api_enhanced"),
      "description" := Lookup(m, "description", JStr("")),
      "api_id" := Lookup(m, "id", JNull)
    ])
  }

  function LoadBalancerOutput(priceMap: map<Json, Json>): Json -> Option<Json> {
    (t: Json) => if t.JObj? && LoadBalancerRecord(t.fields, priceMap).Ok? then Some(LoadBalancerRecord(t.fields, priceMap).value) else None
  }

  /** The result of `process_load_balancer_types_with_pricing`; as for
      server types, a type that is not a dict fails the whole call. */
  function LoadBalancersWithPricing(types: seq<Json>, pricing: Json): Result<seq<Json>> {
    match PriceMap(pricing, "load_balancer_types")
    case Err(e) => Err(e)
    case Ok(pm) =>
      if exists i :: 0 <= i < |types| && !types[i].JObj? then Err(AttributeError)
      else Ok(SeqFilter.FilterMap(types, LoadBalancerOutput(pm)))
  }

  /** The loop body of `process_load_balancer_types_with_pricing` for
      the dict `types[i]`. */
  method LoadBalancerStep(types: seq<Json>, i: nat, priceMap: map<Json, Json>, processed: seq<Json>) returns (next: seq<Json>)
    requires i < |types| && types[i].JObj?
    requires processed == SeqFilter.FilterMap(types[..i], LoadBalancerOutput(priceMap))
    ensures next == SeqFilter.FilterMap(types[..i + 1], LoadBalancerOutput(priceMap))
  {
    var m := types[i].fields;
    var out: Option<Json> := None;
    if "name" in m && Hashable(m["name"]) {
      var primary := PricesOfEntry(PriceInfo(priceMap, m["name"]));
      if primary.Ok? {
        out := Some(LoadBalancerFields(m, primary.value));
      }
    }
    assert out == LoadBalancerOutput(priceMap)(types[i]);
    SeqFilter.FilterMapSnoc(types, i, LoadBalancerOutput(priceMap));
    next := processed + out.ToSeq();
  }

  /** `process_load_balancer_types_with_pricing`. */
  method ProcessLoadBalancerTypesWithPricing(types: seq<Json>, pricing: Json) returns (r: Result<seq<Json>>)
    ensures r == LoadBalancersWithPricing(types, pricing)
  {
    var pm := PriceMap(pricing, "load_balancer_types");
    if pm.Err? {
      return Err(pm.error);
    }
    var processed: seq<Json> := [];
    var i := 0;
    while i < |types| && types[i].JObj?
      invariant i <= |types|
      invariant forall j :: 0 <= j < i ==> types[j].JObj?
      invariant processed == SeqFilter.FilterMap(types[..i], LoadBalancerOutput(pm.value))
    {
      processed := LoadBalancerStep(types, i, pm.value, processed);
      i := i + 1;
    }
    if i < |types| {
      r := Err(AttributeError);
    } else {
      assert types[..i] == types;
      r := Ok(processed);
    }
  }

  /** The name and prices a load-balancer record carries. */
  lemma LoadBalancerFieldsName(m: map<string, Json>, primary: Primary)
    requires "name" in m
    ensures LoadBalancerFields(m, primary).fields["instanceType"] == m["name"]
    ensures LoadBalancerFields(m, primary).fields["priceEUR_hourly_net"] == primary.hourly
  {
  }

  lemma LoadBalancerFieldsRest(m: map<string, Json>, primary: Primary)
    requires "name" in m
    ensures LoadBalancerFields(m, primary).fields["priceEUR_monthly_net"] == primary.monthly
    ensures LoadBalancerFields(m, primary).fields["locations"] == JArr(primary.locations)
    ensures LoadBalancerFields(m, primary).fields["deprecated"] == Lookup(m, "deprecated", JBool(false))
  {
  }

  /** A load balancer type with a readable pricing entry always gets a
      record, priced from the first entry offering an hourly price. */
  lemma LoadBalancerJoin(m: map<string, Json>, priceMap: map<Json, Json>)
    requires "name" in m && Hashable(m["name"]) && PricesOf(PriceInfo(priceMap, m["name"])).Ok?
    ensures LoadBalancerRecord(m, priceMap).Ok?
    ensures var r := LoadBalancerRecord(m, priceMap).value.fields;
      var p := PricesOf(PriceInfo(priceMap, m["name"])).value;
      && r["instanceType"] == m["name"]
      && r["priceEUR_hourly_net"] == p.hourly && r["priceEUR_monthly_net"] == p.monthly
      && r["locations"] == JArr(p.locations)
      && r["deprecated"] == Lookup(m, "deprecated", JBool(false))
  {
    var primary := PricesOf(PriceInfo(priceMap, m["name"])).value;
    LoadBalancerFieldsName(m, primary);
    LoadBalancerFieldsRest(m, primary);
  }

  // ---------------------------------------------------------------------
  // Per-location volume, floating IP and network entries

  /** The fixed fields of one pricing-section processor: record type,
      instance type, the key the monthly price is stored under and the
      description. */
  datatype EntryKind = EntryKind(kind: string, instanceType: string, priceKey: string, description: string)

  const VolumeEntry := EntryKind("volume", "Block Storage Volume", "priceEUR_per_GB_monthly", "Block storage volume pricing per GB")
  const FloatingIpEntry := EntryKind("floating-ip", "Floating IP", "priceEUR_monthly_net", "Floating IP pricing per month")
  const NetworkEntry := EntryKind("network", "Private Network", "priceEUR_monthly_net", "Private network pricing per month")

  /** The record of one dict entry: its monthly net price (0 when absent)
      as a float, and its location. */
  function EntryRecord(k: EntryKind, d: map<string, Json>): Result<Json> {
    match GetNested(JObj(d), "price_monthly", "net", JInt(0))
    case Err(e) => Err(e)
    case Ok(net) =>
      match Float(net)
      case Err(e) => Err(e)
      case Ok(v) =>
        Ok(JObj(map[
          "type" := JStr(k.kind),
          "instanceType" := JStr(k.instanceType),
          k.priceKey := JReal(v),
          "location" := Lookup(d, "location", JNull),
          "source" := JStr("api_enhanced"),
          "description" := JStr(k.description)
        ]))
  }

  /** The entries recorded from `items`: non-dict entries are skipped, and
      the first entry whose price cannot be read ends the loop (the whole
      loop sits in one `try`), keeping what was recorded before it. */
  function EntriesFrom(k: EntryKind, items: seq<Json>): seq<Json> {
    if items == [] then []
    else if !items[0].JObj? then EntriesFrom(k, items[1..])
    else
      match EntryRecord(k, items[0].fields)
      case Err(_) => []
      case Ok(r) => [r] + EntriesFrom(k, items[1..])
  }

  /** `process_volume_pricing`, `process_floating_ip_pricing` and
      `process_network_pricing` on a pricing section: a falsy section, and
      any value that is not a list, gives no entries (iterating a dict or a
      string yields no dicts; iterating anything else raises inside the
      `try`). */
  function PricingEntries(k: EntryKind, pricing: Json): seq<Json> {
    if pricing.JArr? then EntriesFrom(k, pricing.items) else []
  }

  /** The loop of the three pricing-section processors. */
  method ProcessPricingEntries(k: EntryKind, pricing: Json) returns (processed: seq<Json>)
    ensures processed == PricingEntries(k, pricing)
  {
    processed := [];
    if !Truthy(pricing) || !pricing.JArr? {
      return;
    }
    var items := pricing.items;
    var i := 0;
    while i < |items|
      invariant 0 <= i <= |items|
      invariant processed + EntriesFrom(k, items[i..]) == EntriesFrom(k, items)
    {
      assert items[i..][1..] == items[i + 1..];
      if items[i].JObj? {
        var record := EntryRecord(k, items[i].fields);
        if record.Err? {
          assert processed == EntriesFrom(k, items);
          return;
        }
        processed := processed + [record.value];
      }
      i := i + 1;
    }
    assert items[i..] == [];
  }

  /** The record an entry contributes when nothing fails. */
  function EntryOutput(k: EntryKind): Json -> Option<Json> {
    (d: Json) => if d.JObj? && EntryRecord(k, d.fields).Ok? then Some(EntryRecord(k, d.fields).value) else None
  }

  /** When every dict entry has a readable price, there is exactly one
      record per dict entry, in order. */
  lemma {:induction false} EntriesWhenAllReadable(k: EntryKind, items: seq<Json>)
    requires forall i :: 0 <= i < |items| && items[i].JObj? ==> EntryRecord(k, items[i].fields).Ok?
    ensures EntriesFrom(k, items) == SeqFilter.FilterMap(items, EntryOutput(k))
  {
    if items != [] {
      var rest := items[1..];
      forall i | 0 <= i < |rest| && rest[i].JObj? ensures EntryRecord(k, rest[i].fields).Ok? {
        assert rest[i] == items[i + 1];
      }
      EntriesWhenAllReadable(k, rest);
      SeqFilter.FilterMapAppend([items[0]], rest, EntryOutput(k));
      assert [items[0]] + rest == items;
      assert SeqFilter.FilterMap([items[0]], EntryOutput(k)) ==
        SeqFilter.FilterMap([], EntryOutput(k)) + (if EntryOutput(k)(items[0]).Some? then [EntryOutput(k)(items[0]).value] else []);
    }
  }

  /** An unreadable price at position `i` drops every later entry. */
  lemma {:induction false} EntriesStopAtFailure(k: EntryKind, items: seq<Json>, i: nat)
    requires i < |items| && items[i].JObj? && EntryRecord(k, items[i].fields).Err?
    ensures EntriesFrom(k, items) == EntriesFrom(k, items[..i])
  {
    if i == 0 {
      assert items[..0] == [];
    } else {
      EntriesStopAtFailure(k, items[1..], i - 1);
      assert items[..i][1..] == items[1..][..i - 1];
      if items[0].JObj? && EntryRecord(k, items[0].fields).Err? {
        assert EntriesFrom(k, items[..i]) == [];
      }
    }
  }

  predicate EntryShaped(k: EntryKind, r: Json) {
    && r.JObj?
    && "type" in r.fields && r.fields["type"] == JStr(k.kind)
    && "instanceType" in r.fields && r.fields["instanceType"] == JStr(k.instanceType)
    && k.priceKey in r.fields && r.fields[k.priceKey].JReal?
    && "source" in r.fields && r.fields["source"] == JStr("api_enhanced")
  }

  /** Every recorded entry carries the processor's fixed fields and a
      numeric price under its price key. */
  lemma {:induction false} EntriesShape(k: EntryKind, items: seq<Json>)
    requires k.priceKey !in {"type", "instanceType", "location", "source", "description"}
    ensures forall r :: r in EntriesFrom(k, items) ==> EntryShaped(k, r)
  {
    if items != [] {
      EntriesShape(k, items[1..]);
    }
  }

  // ---------------------------------------------------------------------
  // Price text

  /** The characters the price cleaning keeps: ASCII digits, `,` and `.`. */
  predicate PriceChar(c: char) {
    PyText.IsDigit(c) || c == ',' || c == '.'
  }

  predicate AllPriceChars(s: string) {
    forall i :: 0 <= i < |s| ==> PriceChar(s[i])
  }

  predicate NoPriceChars(s: string) {
    forall i :: 0 <= i < |s| ==> !PriceChar(s[i])
  }

  /** Removing every character that is not a digit, `,` or `.`. */
  function CleanPrice(s: string): (r: string)
    ensures |r| <= |s| && AllPriceChars(r)
  {
    if s == [] then []
    else (if PriceChar(s[0]) then [s[0]] else []) + CleanPrice(s[1..])
  }

  /** `s.replace(a, b)` for single characters. */
  function Replace(s: string, a: char, b: char): (r: string)
    ensures |r| == |s|
  {
    seq(|s|, i requires 0 <= i < |s| => if s[i] == a then b else s[i])
  }

  /** `s.replace(c, "")`. */
  function Without(s: string, c: char): (r: string)
    ensures forall i :: 0 <= i < |r| ==> r[i] != c && r[i] in s
  {
    if s == [] then []
    else (if s[0] == c then [] else [s[0]]) + Without(s[1..], c)
  }

  /** `parse_price`: the default for a missing, empty or `"N/A"` text;
      otherwise the cleaned text with its separators resolved, parsed as a
      float, or the default when that fails. */
  function ParsePrice(text: Option<string>, default: Option<real>): Option<real> {
    if text.None? || text.value == [] || text.value == "N/A" then default
    else
      match PyText.ParseFloatText(ResolveSeparators(CleanPrice(text.value)))
      case Some(v) => Some(v)
      case None => default
  }

  /** With both separators present, `.` is dropped and `,` becomes the
      decimal point; otherwise every `,` becomes `.`. */
  function ResolveSeparators(cleaned: string): string {
    if ',' in cleaned && '.' in cleaned then Replace(Without(cleaned, '.'), ',', '.')
    else Replace(cleaned, ',', '.')
  }

  lemma {:induction false} CleanPriceAppend(s: string, t: string)
    ensures CleanPrice(s + t) == CleanPrice(s) + CleanPrice(t)
  {
    if s != [] {
      assert (s + t)[0] == s[0] && (s + t)[1..] == s[1..] + t;
      CleanPriceAppend(s[1..], t);
    } else {
      assert s + t == t;
    }
  }

  lemma {:induction false} CleanPriceOf(s: string)
    ensures AllPriceChars(s) ==> CleanPrice(s) == s
    ensures NoPriceChars(s) ==> CleanPrice(s) == []
  {
    if s != [] {
      CleanPriceOf(s[1..]);
    }
  }

  /** Only the price characters between two runs of other text survive. */
  lemma CleanPriceSurrounded(pre: string, x: string, post: string)
    requires NoPriceChars(pre) && AllPriceChars(x) && NoPriceChars(post)
    ensures CleanPrice(pre + x + post) == x
  {
    CleanPriceAppend(pre + x, post);
    CleanPriceAppend(pre, x);
    CleanPriceOf(pre);
    CleanPriceOf(x);
    CleanPriceOf(post);
  }

  lemma {:induction false} WithoutAppend(s: string, t: string, c: char)
    ensures Without(s + t, c) == Without(s, c) + Without(t, c)
  {
    if s != [] {
      assert (s + t)[0] == s[0] && (s + t)[1..] == s[1..] + t;
      WithoutAppend(s[1..], t, c);
    } else {
      assert s + t == t;
    }
  }

  lemma {:induction false} WithoutAbsent(s: string, c: char)
    requires c !in s
    ensures Without(s, c) == s
  {
    if s != [] {
      WithoutAbsent(s[1..], c);
    }
  }

  /** A numeral without sign or whitespace is parsed as it is. */
  lemma PlainNumeral(s: string)
    requires AllPriceChars(s)
    ensures PyText.ParseFloatText(s) == PyText.ParseDecimal(s)
  {
    if s != [] {
      assert !PyText.IsSpace(s[0]) && !PyText.IsSpace(s[|s| - 1]);
      assert PyText.StripLeft(s) == s;
      assert PyText.Strip(s) == s;
    }
  }

  /** Parsing never yields a negative price: signs are cleaned away. */
  lemma ParsePriceNonNegative(text: Option<string>, default: Option<real>)
    ensures ParsePrice(text, default) == default || ParsePrice(text, default).value >= 0.0
  {
    if !(text.None? || text.value == [] || text.value == "N/A") {
      PlainNumeral(ResolveSeparators(CleanPrice(text.value)));
    }
  }

  /** The position of the decimal point in `whole + "." + frac`. */
  lemma PointAt(whole: string, frac: string)
    requires PyText.AllDigits(whole)
    ensures PyText.IndexOf(whole + "." + frac, '.') == Some(|whole|)
  {
    var s := whole + "." + frac;
    assert s[|whole|] == '.';
    assert forall i :: 0 <= i < |whole| ==> s[i] == whole[i];
  }

  /** The value `whole.frac` denotes. */
  function DecimalValue(whole: string, frac: string): real
    requires PyText.AllDigits(whole) && PyText.AllDigits(frac)
  {
    PyText.DigitsValue(whole) as real + PyText.DigitsValue(frac) as real / PyText.Pow10(|frac|) as real
  }

  lemma ParseDecimalPoint(whole: string, frac: string)
    requires PyText.AllDigits(whole) && PyText.AllDigits(frac) && whole != []
    ensures PyText.ParseDecimal(whole + "." + frac) == Some(DecimalValue(whole, frac))
  {
    PointAt(whole, frac);
    var s := whole + "." + frac;
    assert s[..|whole|] == whole;
    assert s[|whole| + 1..] == frac;
  }

  lemma ParsePriceOf(text: string, default: Option<real>, v: real)
    requires text != [] && text != "N/A"
    requires PyText.ParseFloatText(ResolveSeparators(CleanPrice(text))) == Some(v)
    ensures ParsePrice(Some(text), default) == Some(v)
  {
  }

  /** A whole number among other text is read as that number. */
  lemma ParsePriceWholeNumber(pre: string, n: nat, post: string, default: Option<real>)
    requires NoPriceChars(pre) && NoPriceChars(post)
    ensures ParsePrice(Some(pre + PyText.NatToDigits(n) + post), default) == Some(n as real)
  {
    var digits := PyText.NatToDigits(n);
    var text := pre + digits + post;
    assert text[|pre|] == digits[0];
    assert PyText.IsDigit(text[|pre|]);
    assert forall i :: 0 <= i < 3 ==> !PyText.IsDigit("N/A"[i]);
    CleanPriceSurrounded(pre, digits, post);
    assert ',' !in digits && '.' !in digits;
    assert Replace(digits, ',', '.') == digits;
    assert ResolveSeparators(CleanPrice(text)) == digits;
    PlainNumeral(digits);
    PyText.ParseDecimalOfNat(n);
    ParsePriceOf(text, default, n as real);
  }

  /** Replacing the only comma of `whole,frac` gives `whole.frac`. */
  lemma CommaBecomesPoint(whole: string, frac: string)
    requires PyText.AllDigits(whole) && PyText.AllDigits(frac)
    ensures Replace(whole + "," + frac, ',', '.') == whole + "." + frac
  {
  }

  /** `whole.frac` with digits on both sides is read as a decimal. */
  lemma ParseDecimalNumeral(whole: string, frac: string)
    requires PyText.AllDigits(whole) && PyText.AllDigits(frac) && whole != []
    ensures PyText.ParseFloatText(whole + "." + frac) == Some(DecimalValue(whole, frac))
  {
    PlainNumeral(whole + "." + frac);
    ParseDecimalPoint(whole, frac);
  }

  /** A text holding a digit at `i` is neither empty nor `"N/A"`. */
  lemma NotMissing(text: string, i: nat)
    requires i < |text| && PyText.IsDigit(text[i])
    ensures text != [] && text != "N/A"
  {
    assert forall j :: 0 <= j < 3 ==> !PyText.IsDigit("N/A"[j]);
  }

  /** A decimal comma is read as a decimal point: `12,50` is 12.5. */
  lemma ParsePriceDecimalComma(pre: string, whole: string, frac: string, post: string, default: Option<real>)
    requires NoPriceChars(pre) && NoPriceChars(post)
    requires PyText.AllDigits(whole) && PyText.AllDigits(frac) && whole != []
    ensures ParsePrice(Some(pre + whole + "," + frac + post), default) == Some(DecimalValue(whole, frac))
  {
    var x := whole + "," + frac;
    var text := pre + whole + "," + frac + post;
    assert text == pre + x + post;
    assert text[|pre|] == whole[0];
    NotMissing(text, |pre|);
    assert AllPriceChars(x);
    CleanPriceSurrounded(pre, x, post);
    assert '.' !in x by {
      assert forall i :: 0 <= i < |x| && i != |whole| ==> PyText.IsDigit(x[i]);
    }
    CommaBecomesPoint(whole, frac);
    ParseDecimalNumeral(whole, frac);
    ParsePriceOf(text, default, DecimalValue(whole, frac));
  }

  /** Dropping the grouping point of `whole.group,frac`. */
  lemma DropGroupingPoint(whole: string, group: string, frac: string)
    requires PyText.AllDigits(whole) && PyText.AllDigits(group) && PyText.AllDigits(frac)
    ensures Without(whole + "." + group + "," + frac, '.') == whole + group + "," + frac
  {
    var tail := "," + frac;
    var rest := group + tail;
    DigitsHaveNoPoint(whole);
    DigitsHaveNoPoint(group);
    assert '.' !in tail by {
      assert forall i :: 1 <= i < |tail| ==> tail[i] == frac[i - 1];
    }
    WithoutAbsent(whole, '.');
    WithoutAbsent(group, '.');
    WithoutAbsent(tail, '.');
    WithoutAppend(group, tail, '.');
    assert Without(rest, '.') == rest;
    WithoutAppend(".", rest, '.');
    assert Without("." + rest, '.') == rest;
    WithoutAppend(whole, "." + rest, '.');
    var x := whole + "." + group + "," + frac;
    var y := whole + group + "," + frac;
    assert x == whole + ("." + rest) by {
      Regroup(whole, ".", group, ",", frac);
    }
    assert y == whole + rest by {
      Regroup(whole, [], group, ",", frac);
      assert whole + [] == whole;
    }
    assert Without(x, '.') == y;
  }

  lemma Regroup(a: string, b: string, c: string, d: string, e: string)
    ensures a + b + c + d + e == a + (b + (c + (d + e)))
  {
  }

  /** Digits hold no decimal point. */
  lemma DigitsHaveNoPoint(s: string)
    requires PyText.AllDigits(s)
    ensures '.' !in s
  {
  }

  /** With both separators, `.` groups thousands and `,` is the decimal
      separator: `1.234,56` is 1234.56. */
  lemma ParsePriceGroupedDecimal(pre: string, whole: string, group: string, frac: string, post: string,
                                 default: Option<real>)
    requires NoPriceChars(pre) && NoPriceChars(post)
    requires PyText.AllDigits(whole) && PyText.AllDigits(group) && PyText.AllDigits(frac) && whole != []
    ensures ParsePrice(Some(pre + whole + "." + group + "," + frac + post), default) ==
      Some(DecimalValue(whole + group, frac))
  {
    var x := whole + "." + group + "," + frac;
    var text := pre + whole + "." + group + "," + frac + post;
    assert text == pre + x + post;
    assert text[|pre|] == whole[0];
    NotMissing(text, |pre|);
    assert AllPriceChars(x);
    CleanPriceSurrounded(pre, x, post);
    assert x[|whole|] == '.' && x[|whole| + 1 + |group|] == ',';
    DropGroupingPoint(whole, group, frac);
    var joined := whole + group;
    assert PyText.AllDigits(joined);
    CommaBecomesPoint(joined, frac);
    ParseDecimalNumeral(joined, frac);
    ParsePriceOf(text, default, DecimalValue(joined, frac));
  }
}
