/** `merge_ipv4_ipv6_data` of the first Hetzner collector
    (`scripts/fetch_hetzner.py`): IPv4-priced server offers are indexed by
    `instanceType_location`, with an alias `fallback_instanceType_cpu_ram`
    pointing at one of them; IPv6-priced offers are then merged into the
    entry they match, or added on their own. The working dict is an
    insertion-ordered table of server entries and alias entries. */
module HetznerV1Merge {

  import opened Wrappers
  import opened PyJson
  import PyText

  /** A value of the working dict: a server record, or the primary key an
      alias points at. */
  datatype Slot = Server(fields: map<string, Json>) | Alias(target: string)

  /** An insertion-ordered dict: assigning an existing key keeps its
      position, a new key goes last. */
  datatype Table = Table(order: seq<string>, slots: map<string, Slot>) {
    ghost predicate Valid() {
      && (forall i, j :: 0 <= i < j < |order| ==> order[i] != order[j])
      && (forall k :: k in slots <==> k in order)
    }

    function Put(k: string, v: Slot): (r: Table)
      requires Valid()
      ensures r.Valid()
      ensures r.slots == slots[k := v]
      ensures r.order == if k in slots then order else order + [k]
    {
      Table(if k in slots then order else order + [k], slots[k := v])
    }
  }

  const Empty := Table([], map[])

  const AliasPrefix := "fallback_"

  // ---------------------------------------------------------------------
  // Keys

  /** Values whose `str` the model renders: strings, integers, booleans
      and `None`. */
  predicate Renderable(j: Json) {
    j.JStr? || j.JInt? || j.JBool? || j.JNull?
  }

  /** `str(j)` for a renderable value. */
  function Text(j: Json): string
    requires Renderable(j)
  {
    match j
    case JStr(s) => s
    case JInt(i) => if i < 0 then "-" + PyText.NatToDigits(-i) else PyText.NatToDigits(i)
    case JBool(b) => if b then "True" else "False"
    case JNull => "None"
  }

  /** The key fields of a server record are renderable where present. The
      scraped offers the merge receives carry strings there; its only call
      (`scripts/fetch_hetzner.py` line 1742) is itself in code that never
      runs, so this precondition excludes no reachable input. */
  predicate KeyFields(d: map<string, Json>) {
    forall f :: f in d && f in {"instanceType", "location", "cpu", "ram"} ==> Renderable(d[f])
  }

  predicate AllKeyFields(servers: seq<Json>) {
    forall s :: s in servers && s.JObj? ==> KeyFields(s.fields)
  }

  /** `str(d.get(f, 'unknown'))`. */
  function FieldText(d: map<string, Json>, f: string): string
    requires KeyFields(d) && f in {"location", "cpu", "ram"}
  {
    if f in d then Text(d[f]) else "unknown"
  }

  function PrimaryKey(d: map<string, Json>): string
    requires KeyFields(d) && "instanceType" in d
  {
    Text(d["instanceType"]) + "_" + FieldText(d, "location")
  }

  function FallbackKey(d: map<string, Json>): string
    requires KeyFields(d) && "instanceType" in d
  {
    Text(d["instanceType"]) + "_" + FieldText(d, "cpu") + "_" + FieldText(d, "ram")
  }

  /** The fields an IPv6 offer contributes to the entry it matches. */
  function Ipv6Fields(d: map<string, Json>): map<string, Json> {
    map[
      "priceEUR_monthly_net_ipv6" := Lookup(d, "priceEUR_monthly_net_ipv6", JNull),
      "priceEUR_hourly_net_ipv6" := Lookup(d, "priceEUR_hourly_net_ipv6", JNull),
      "setup_feeEUR_ipv6" := Lookup(d, "setup_feeEUR_ipv6", JNull),
      "ipv6_pricing_available" := JBool(true)
    ]
  }

  // ---------------------------------------------------------------------
  // The IPv4 pass

  /** The key whose absence lets an IPv4 offer (re)write the alias. As
      written, the guard tests the alias key without its prefix, which is
      practically never present, so every offer rewrites the alias; the
      evidently intended guard tests the alias key itself, so the first
      offer keeps it. */
  function AliasGuard(fk: string, asWritten: bool): string {
    if asWritten then fk else AliasPrefix + fk
  }

  /** One IPv4 offer: store a copy under its primary key, then the alias
      unless the guard key is present. */
  function Ipv4Step(t: Table, server: Json, asWritten: bool): (r: Result<Table>)
    requires t.Valid() && (server.JObj? ==> KeyFields(server.fields))
    ensures r.Ok? ==> r.value.Valid()
  {
    if !server.JObj? then Err(TypeError)
    else if "instanceType" !in server.fields then Err(KeyError)
    else
      var d := server.fields;
      var pk := PrimaryKey(d);
      var t1 := t.Put(pk, Server(d));
      if AliasGuard(FallbackKey(d), asWritten) !in t1.slots then Ok(t1.Put(AliasPrefix + FallbackKey(d), Alias(pk)))
      else Ok(t1)
  }

  function Ipv4Pass(t: Table, servers: seq<Json>, asWritten: bool): (r: Result<Table>)
    requires t.Valid() && AllKeyFields(servers)
    ensures r.Ok? ==> r.value.Valid()
    decreases |servers|
  {
    if servers == [] then Ok(t)
    else
      assert servers[0] in servers;
      match Ipv4Step(t, servers[0], asWritten)
      case Err(e) => Err(e)
      case Ok(t1) =>
        assert forall s :: s in servers[1..] ==> s in servers;
        Ipv4Pass(t1, servers[1..], asWritten)
  }

  // ---------------------------------------------------------------------
  // The IPv6 pass

  /** The entry an IPv6 offer matches: its primary key, else the target of
      its alias. `None` when there is none, or when the alias slot holds a
      falsy value; an alias slot holding a non-empty record raises, since a
      dict cannot be looked up as a key. */
  function MatchedKey(t: Table, d: map<string, Json>): Result<Option<string>>
    requires KeyFields(d) && "instanceType" in d
  {
    var pk := PrimaryKey(d);
    var ak := AliasPrefix + FallbackKey(d);
    if pk in t.slots then Ok(Some(pk))
    else if ak !in t.slots then Ok(None)
    else
      match t.slots[ak]
      case Alias(target) => Ok(if target != "" && target in t.slots then Some(target) else None)
      case Server(m) => if m == map[] then Ok(None) else Err(TypeError)
  }

  /** One IPv6 offer: the matched entry gets the four IPv6 fields (an alias
      in its place has no `update` and raises); an unmatched offer is
      stored under its primary key. */
  function Ipv6Step(t: Table, server: Json): (r: Result<Table>)
    requires t.Valid() && (server.JObj? ==> KeyFields(server.fields))
    ensures r.Ok? ==> r.value.Valid()
  {
    if !server.JObj? then Err(TypeError)
    else if "instanceType" !in server.fields then Err(KeyError)
    else
      var d := server.fields;
      match MatchedKey(t, d)
      case Err(e) => Err(e)
      case Ok(None) => Ok(t.Put(PrimaryKey(d), Server(d)))
      case Ok(Some(k)) =>
        match t.slots[k]
        case Alias(_) => Err(AttributeError)
        case Server(m) => Ok(t.Put(k, Server(m + Ipv6Fields(d))))
  }

  function Ipv6Pass(t: Table, servers: seq<Json>): (r: Result<Table>)
    requires t.Valid() && AllKeyFields(servers)
    ensures r.Ok? ==> r.value.Valid()
    decreases |servers|
  {
    if servers == [] then Ok(t)
    else
      assert servers[0] in servers;
      match Ipv6Step(t, servers[0])
      case Err(e) => Err(e)
      case Ok(t1) =>
        assert forall s :: s in servers[1..] ==> s in servers;
        Ipv6Pass(t1, servers[1..])
  }

  // ---------------------------------------------------------------------
  // The output

  function SlotValue(v: Slot): Json {
    match v
    case Server(m) => JObj(m)
    case Alias(target) => JStr(target)
  }

  /** The values of the keys without the alias prefix, in key order. */
  function Values(order: seq<string>, slots: map<string, Slot>): seq<Json>
    requires forall k :: k in order ==> k in slots
  {
    if order == [] then []
    else
      var k := order[|order| - 1];
      Values(order[..|order| - 1], slots) + (if PyText.StartsWith(k, AliasPrefix) then [] else [SlotValue(slots[k])])
  }

  function MergeWith(ipv4: seq<Json>, ipv6: seq<Json>, asWritten: bool): Result<seq<Json>>
    requires AllKeyFields(ipv4) && AllKeyFields(ipv6)
  {
    match Ipv4Pass(Empty, ipv4, asWritten)
    case Err(e) => Err(e)
    case Ok(t) =>
      match Ipv6Pass(t, ipv6)
      case Err(e) => Err(e)
      case Ok(t2) => Ok(Values(t2.order, t2.slots))
  }

  /** The merge as written, where the last IPv4 offer of a fallback key
      owns the alias. */
  function MergeAsWritten(ipv4: seq<Json>, ipv6: seq<Json>): Result<seq<Json>>
    requires AllKeyFields(ipv4) && AllKeyFields(ipv6)
  {
    MergeWith(ipv4, ipv6, true)
  }

  /** The merge with the alias guard as intended: the first IPv4 offer of
      a fallback key owns the alias. */
  function Merge(ipv4: seq<Json>, ipv6: seq<Json>): Result<seq<Json>>
    requires AllKeyFields(ipv4) && AllKeyFields(ipv6)
  {
    MergeWith(ipv4, ipv6, false)
  }

  // ---------------------------------------------------------------------
  // The imperative merge

  /** The first pass of a pass over offers. */
  lemma Ipv4PassCons(t: Table, servers: seq<Json>, asWritten: bool)
    requires t.Valid() && AllKeyFields(servers) && servers != []
    ensures servers[0] in servers && AllKeyFields(servers[1..])
    ensures var step := Ipv4Step(t, servers[0], asWritten);
      Ipv4Pass(t, servers, asWritten) == if step.Err? then Err(step.error) else Ipv4Pass(step.value, servers[1..], asWritten)
  {
    assert servers[0] in servers;
    assert forall s :: s in servers[1..] ==> s in servers;
  }

  lemma Ipv6PassCons(t: Table, servers: seq<Json>)
    requires t.Valid() && AllKeyFields(servers) && servers != []
    ensures servers[0] in servers && AllKeyFields(servers[1..])
    ensures var step := Ipv6Step(t, servers[0]);
      Ipv6Pass(t, servers) == if step.Err? then Err(step.error) else Ipv6Pass(step.value, servers[1..])
  {
    assert servers[0] in servers;
    assert forall s :: s in servers[1..] ==> s in servers;
  }

  /** The IPv4 loop of `merge_ipv4_ipv6_data`; `asWritten` selects the alias
      guard as written or as intended (see `AliasGuard`). */
  method Ipv4Loop(ipv4: seq<Json>, asWritten: bool) returns (r: Result<Table>)
    requires AllKeyFields(ipv4)
    ensures r == Ipv4Pass(Empty, ipv4, asWritten)
  {
    var merged := Empty;
    var i := 0;
    while i < |ipv4|
      invariant i <= |ipv4| && merged.Valid() && AllKeyFields(ipv4[i..])
      invariant Ipv4Pass(merged, ipv4[i..], asWritten) == Ipv4Pass(Empty, ipv4, asWritten)
    {
      Ipv4PassCons(merged, ipv4[i..], asWritten);
      assert ipv4[i..][0] == ipv4[i] && ipv4[i..][1..] == ipv4[i + 1..];
      var step := Ipv4Step(merged, ipv4[i], asWritten);
      if step.Err? {
        return Err(step.error);
      }
      merged := step.value;
      i := i + 1;
    }
    assert ipv4[i..] == [];
    r := Ok(merged);
  }

  /** The IPv6 loop of `merge_ipv4_ipv6_data`. */
  method Ipv6Loop(t: Table, ipv6: seq<Json>) returns (r: Result<Table>)
    requires t.Valid() && AllKeyFields(ipv6)
    ensures r == Ipv6Pass(t, ipv6)
  {
    var merged := t;
    var i := 0;
    while i < |ipv6|
      invariant i <= |ipv6| && merged.Valid() && AllKeyFields(ipv6[i..])
      invariant Ipv6Pass(merged, ipv6[i..]) == Ipv6Pass(t, ipv6)
    {
      Ipv6PassCons(merged, ipv6[i..]);
      assert ipv6[i..][0] == ipv6[i] && ipv6[i..][1..] == ipv6[i + 1..];
      var step := Ipv6Step(merged, ipv6[i]);
      if step.Err? {
        return Err(step.error);
      }
      merged := step.value;
      i := i + 1;
    }
    assert ipv6[i..] == [];
    r := Ok(merged);
  }

  /** The values of the non-alias keys, in insertion order. */
  method CollectValues(t: Table) returns (results: seq<Json>)
    requires t.Valid()
    ensures results == Values(t.order, t.slots)
  {
    results := [];
    for i := 0 to |t.order|
      invariant results == Values(t.order[..i], t.slots)
    {
      assert t.order[..i + 1][..i] == t.order[..i];
      var key := t.order[i];
      if !PyText.StartsWith(key, AliasPrefix) {
        results := results + [SlotValue(t.slots[key])];
      }
    }
    assert t.order[..|t.order|] == t.order;
  }

  /** `merge_ipv4_ipv6_data`, with the alias guard as written when
      `asWritten` holds and as intended otherwise (see `AliasGuard`). */
  method MergeIpv4Ipv6Data(ipv4: seq<Json>, ipv6: seq<Json>, asWritten: bool) returns (r: Result<seq<Json>>)
    requires AllKeyFields(ipv4) && AllKeyFields(ipv6)
    ensures r == MergeWith(ipv4, ipv6, asWritten)
  {
    var merged := Ipv4Loop(ipv4, asWritten);
    if merged.Err? {
      return Err(merged.error);
    }
    merged := Ipv6Loop(merged.value, ipv6);
    if merged.Err? {
      return Err(merged.error);
    }
    var results := CollectValues(merged.value);
    r := Ok(results);
  }

  // ---------------------------------------------------------------------
  // Properties

  /** Alias entries only ever sit under prefixed keys. */
  ghost predicate AliasesPrefixed(t: Table) {
    forall k :: k in t.slots && t.slots[k].Alias? ==> PyText.StartsWith(k, AliasPrefix)
  }

  lemma Ipv4StepKeepsAliasesPrefixed(t: Table, server: Json, asWritten: bool)
    requires t.Valid() && (server.JObj? ==> KeyFields(server.fields)) && AliasesPrefixed(t)
    requires Ipv4Step(t, server, asWritten).Ok?
    ensures AliasesPrefixed(Ipv4Step(t, server, asWritten).value)
  {
    if server.JObj? && "instanceType" in server.fields {
      var d := server.fields;
      var t1 := t.Put(PrimaryKey(d), Server(d));
      assert AliasesPrefixed(t1);
      assert PyText.StartsWith(AliasPrefix + FallbackKey(d), AliasPrefix);
    }
  }

  lemma {:induction false} Ipv4PassKeepsAliasesPrefixed(t: Table, servers: seq<Json>, asWritten: bool)
    requires t.Valid() && AllKeyFields(servers) && AliasesPrefixed(t)
    requires Ipv4Pass(t, servers, asWritten).Ok?
    ensures AliasesPrefixed(Ipv4Pass(t, servers, asWritten).value)
    decreases |servers|
  {
    if servers != [] {
      assert servers[0] in servers;
      Ipv4StepKeepsAliasesPrefixed(t, servers[0], asWritten);
      assert forall s :: s in servers[1..] ==> s in servers;
      Ipv4PassKeepsAliasesPrefixed(Ipv4Step(t, servers[0], asWritten).value, servers[1..], asWritten);
    }
  }

  lemma {:induction false} Ipv6PassKeepsAliasesPrefixed(t: Table, servers: seq<Json>)
    requires t.Valid() && AllKeyFields(servers) && AliasesPrefixed(t)
    requires Ipv6Pass(t, servers).Ok?
    ensures AliasesPrefixed(Ipv6Pass(t, servers).value)
    decreases |servers|
  {
    if servers != [] {
      assert servers[0] in servers;
      assert forall s :: s in servers[1..] ==> s in servers;
      Ipv6PassKeepsAliasesPrefixed(Ipv6Step(t, servers[0]).value, servers[1..]);
    }
  }

  lemma {:induction false} ValuesAreRecords(order: seq<string>, slots: map<string, Slot>)
    requires forall k :: k in order ==> k in slots
    requires forall k :: k in slots && slots[k].Alias? ==> PyText.StartsWith(k, AliasPrefix)
    ensures |Values(order, slots)| <= |order|
    ensures forall v :: v in Values(order, slots) ==> v.JObj?
  {
    if order != [] {
      ValuesAreRecords(order[..|order| - 1], slots);
    }
  }

  /** The output holds only server records: no alias entry survives, as
      written or corrected. */
  lemma MergeOutputsRecords(ipv4: seq<Json>, ipv6: seq<Json>, asWritten: bool)
    requires AllKeyFields(ipv4) && AllKeyFields(ipv6) && MergeWith(ipv4, ipv6, asWritten).Ok?
    ensures forall v :: v in MergeWith(ipv4, ipv6, asWritten).value ==> v.JObj?
  {
    Ipv4PassKeepsAliasesPrefixed(Empty, ipv4, asWritten);
    var t := Ipv4Pass(Empty, ipv4, asWritten).value;
    Ipv6PassKeepsAliasesPrefixed(t, ipv6);
    var t2 := Ipv6Pass(t, ipv6).value;
    ValuesAreRecords(t2.order, t2.slots);
  }

  /** An IPv6 offer whose primary key holds a record sets exactly the four
      IPv6 fields of that record and changes nothing else; an offer with
      neither its primary key nor its alias present is added, last, as its
      own entry. */
  lemma Ipv6StepEffect(t: Table, d: map<string, Json>)
    requires t.Valid() && KeyFields(d) && "instanceType" in d
    ensures var pk := PrimaryKey(d);
      && (pk in t.slots && t.slots[pk].Server? ==>
            var m := t.slots[pk].fields;
            && Ipv6Step(t, JObj(d)).Ok?
            && Ipv6Step(t, JObj(d)).value.order == t.order
            && Ipv6Step(t, JObj(d)).value.slots == t.slots[pk := Server(m + Ipv6Fields(d))]
            && (forall f :: f in m && f !in Ipv6Fields(d) ==> (m + Ipv6Fields(d))[f] == m[f]))
      && (pk !in t.slots && AliasPrefix + FallbackKey(d) !in t.slots ==>
            Ipv6Step(t, JObj(d)) == Ok(Table(t.order + [pk], t.slots[pk := Server(d)])))
  {
  }

  /** An IPv6 offer whose primary key is absent but whose alias points at a
      stored record sets exactly the four IPv6 fields of that record, in
      place; an alias pointing nowhere leaves the offer to be added as its
      own entry. */
  lemma Ipv6StepThroughAlias(t: Table, d: map<string, Json>)
    requires t.Valid() && KeyFields(d) && "instanceType" in d
    requires PrimaryKey(d) !in t.slots
    requires AliasPrefix + FallbackKey(d) in t.slots && t.slots[AliasPrefix + FallbackKey(d)].Alias?
    ensures var target := t.slots[AliasPrefix + FallbackKey(d)].target;
      && (target != "" && target in t.slots && t.slots[target].Server? ==>
            var m := t.slots[target].fields;
            && Ipv6Step(t, JObj(d)) == Ok(Table(t.order, t.slots[target := Server(m + Ipv6Fields(d))]))
            && (forall f :: f in m && f !in Ipv6Fields(d) ==> (m + Ipv6Fields(d))[f] == m[f]))
      && (target == "" || target !in t.slots ==>
            Ipv6Step(t, JObj(d)) == Ok(Table(t.order + [PrimaryKey(d)], t.slots[PrimaryKey(d) := Server(d)])))
  {
  }

  /** `servers[i]` is the first offer with its fallback key. */
  predicate FirstOfFallback(servers: seq<Json>, i: int) {
    && 0 <= i < |servers| && FallbackOf(servers[i]).Some?
    && forall j :: 0 <= j < i ==> FallbackOf(servers[j]).Some? && FallbackOf(servers[j]) != FallbackOf(servers[i])
  }

  /** The fallback key of an offer that has one. */
  function FallbackOf(s: Json): Option<string> {
    if s.JObj? && "instanceType" in s.fields && KeyFields(s.fields) then Some(FallbackKey(s.fields)) else None
  }

  /** No primary key collides with the alias key `ak`. */
  predicate PrimaryKeysAvoid(servers: seq<Json>, ak: string)
    requires AllKeyFields(servers)
  {
    forall s :: s in servers && s.JObj? && "instanceType" in s.fields ==> PrimaryKey(s.fields) != ak
  }

  /** With the intended guard, an alias once stored is never rewritten. */
  lemma {:induction false} AliasKept(t: Table, servers: seq<Json>, ak: string)
    requires t.Valid() && AllKeyFields(servers) && PrimaryKeysAvoid(servers, ak)
    requires ak in t.slots && Ipv4Pass(t, servers, false).Ok?
    ensures ak in Ipv4Pass(t, servers, false).value.slots
    ensures Ipv4Pass(t, servers, false).value.slots[ak] == t.slots[ak]
    decreases |servers|
  {
    if servers != [] {
      assert servers[0] in servers;
      assert forall s :: s in servers[1..] ==> s in servers;
      AliasKept(Ipv4Step(t, servers[0], false).value, servers[1..], ak);
    }
  }

  /** An offer with another fallback key and another primary key leaves
      an absent alias key absent. */
  lemma Ipv4StepOtherAlias(t: Table, d: map<string, Json>, ak: string)
    requires t.Valid() && KeyFields(d) && "instanceType" in d && ak !in t.slots
    requires PyText.StartsWith(ak, AliasPrefix) && PrimaryKey(d) != ak && FallbackKey(d) != ak[|AliasPrefix|..]
    ensures Ipv4Step(t, JObj(d), false).Ok? && ak !in Ipv4Step(t, JObj(d), false).value.slots
  {
    var fk := FallbackKey(d);
    assert (AliasPrefix + fk)[|AliasPrefix|..] == fk;
    assert AliasPrefix + fk != ak;
    var t1 := t.Put(PrimaryKey(d), Server(d));
    assert ak !in t1.slots;
  }

  /** The fixed premises of `AliasIsFirst`: `servers[i]` is the first
      offer of its fallback key, whose alias key `ak` is no primary key;
      `pk` is its primary key. */
  ghost predicate AliasSetting(servers: seq<Json>, i: int, ak: string, pk: string) {
    && AllKeyFields(servers) && FirstOfFallback(servers, i)
    && ak == AliasPrefix + FallbackOf(servers[i]).value && pk == PrimaryKey(servers[i].fields)
    && PrimaryKeysAvoid(servers, ak)
  }

  /** The offers from `n` on keep the key fields and avoid `ak`. */
  lemma SuffixSetting(servers: seq<Json>, n: int, ak: string)
    requires AllKeyFields(servers) && PrimaryKeysAvoid(servers, ak) && 0 <= n <= |servers|
    ensures AllKeyFields(servers[n..]) && PrimaryKeysAvoid(servers[n..], ak)
  {
    assert forall s :: s in servers[n..] ==> s in servers;
  }

  /** Run from offer `n` on, with the alias key still absent, the pass
      stores the alias at offer `i` and keeps it. */
  lemma {:induction false} AliasFrom(t: Table, servers: seq<Json>, n: int, i: int, ak: string, pk: string)
    requires AliasSetting(servers, i, ak, pk) && 0 <= n <= i
    requires t.Valid() && AllKeyFields(servers[n..]) && ak !in t.slots && Ipv4Pass(t, servers[n..], false).Ok?
    ensures ak in Ipv4Pass(t, servers[n..], false).value.slots
    ensures Ipv4Pass(t, servers[n..], false).value.slots[ak] == Alias(pk)
    decreases i - n
  {
    var rest := servers[n..];
    Ipv4PassCons(t, rest, false);
    assert rest[0] == servers[n] && rest[1..] == servers[n + 1..];
    SuffixSetting(servers, n + 1, ak);
    if n == i {
      AliasStoredAt(t, servers, i, ak, pk);
      AliasKept(Ipv4Step(t, servers[n], false).value, servers[n + 1..], ak);
    } else {
      AliasAbsentBefore(t, servers, n, i, ak, pk);
      AliasFrom(Ipv4Step(t, servers[n], false).value, servers, n + 1, i, ak, pk);
    }
  }

  /** Offer `i` stores the alias. */
  lemma AliasStoredAt(t: Table, servers: seq<Json>, i: int, ak: string, pk: string)
    requires AliasSetting(servers, i, ak, pk) && t.Valid() && ak !in t.slots
    ensures servers[i] in servers
    ensures Ipv4Step(t, servers[i], false).Ok?
    ensures ak in Ipv4Step(t, servers[i], false).value.slots
    ensures Ipv4Step(t, servers[i], false).value.slots[ak] == Alias(pk)
  {
    assert servers[i] in servers;
  }

  /** An offer before `i` leaves the alias key absent. */
  lemma AliasAbsentBefore(t: Table, servers: seq<Json>, n: int, i: int, ak: string, pk: string)
    requires AliasSetting(servers, i, ak, pk) && 0 <= n < i && t.Valid() && ak !in t.slots
    ensures servers[n] in servers
    ensures Ipv4Step(t, servers[n], false).Ok? && ak !in Ipv4Step(t, servers[n], false).value.slots
  {
    assert ak[|AliasPrefix|..] == FallbackKey(servers[i].fields);
    assert PyText.StartsWith(ak, AliasPrefix);
    assert servers[n] in servers;
    Ipv4StepOtherAlias(t, servers[n].fields, ak);
  }

  /** With the intended guard, the alias of a fallback key points at the
      first IPv4 offer having that fallback key. */
  lemma AliasIsFirst(t: Table, servers: seq<Json>, i: int)
    requires t.Valid() && AllKeyFields(servers) && FirstOfFallback(servers, i)
    requires AliasPrefix + FallbackKey(servers[i].fields) !in t.slots
    requires PrimaryKeysAvoid(servers, AliasPrefix + FallbackKey(servers[i].fields))
    requires Ipv4Pass(t, servers, false).Ok?
    ensures AliasPrefix + FallbackKey(servers[i].fields) in Ipv4Pass(t, servers, false).value.slots
    ensures Ipv4Pass(t, servers, false).value.slots[AliasPrefix + FallbackKey(servers[i].fields)] ==
      Alias(PrimaryKey(servers[i].fields))
  {
    var ak, pk := AliasPrefix + FallbackKey(servers[i].fields), PrimaryKey(servers[i].fields);
    assert servers[0..] == servers;
    AliasFrom(t, servers, 0, i, ak, pk);
  }

  // ---------------------------------------------------------------------
  // The alias guard, as written and as intended, on two offers

  /** Two IPv4 offers `a` and `b` with distinct primary keys and one
      fallback key, and an IPv6 offer `c` with that fallback key matching
      neither primary key. No primary key carries the alias prefix, and
      the fallback key is not itself a primary key. */
  predicate Scenario(a: map<string, Json>, b: map<string, Json>, c: map<string, Json>) {
    && KeyFields(a) && KeyFields(b) && KeyFields(c)
    && "instanceType" in a && "instanceType" in b && "instanceType" in c
    && FallbackKey(b) == FallbackKey(a) && FallbackKey(c) == FallbackKey(a)
    && PrimaryKey(a) != PrimaryKey(b) && PrimaryKey(c) != PrimaryKey(a) && PrimaryKey(c) != PrimaryKey(b)
    && !PyText.StartsWith(PrimaryKey(a), AliasPrefix) && !PyText.StartsWith(PrimaryKey(b), AliasPrefix)
    && !PyText.StartsWith(PrimaryKey(c), AliasPrefix)
    && FallbackKey(a) != PrimaryKey(a) && FallbackKey(a) != PrimaryKey(b)
    && PrimaryKey(a) != "" && PrimaryKey(b) != ""
  }

  /** A prefixed key is neither unprefixed nor its own suffix. */
  lemma AliasKeyDiffers(fk: string, k: string)
    requires !PyText.StartsWith(k, AliasPrefix)
    ensures PyText.StartsWith(AliasPrefix + fk, AliasPrefix)
    ensures AliasPrefix + fk != k && AliasPrefix + fk != fk
  {
    assert (AliasPrefix + fk)[..|AliasPrefix|] == AliasPrefix;
  }

  /** The table after the first IPv4 offer: the offer `x` under `ka`, then
      the alias `al` pointing at it. */
  function FirstTable(ka: string, al: string, x: map<string, Json>): Table {
    Empty.Put(ka, Server(x)).Put(al, Alias(ka))
  }

  /** The table after the second IPv4 offer `y`, under `kb`: as written
      the alias is rewritten to point at `kb`, as intended it still points
      at `ka`. */
  function SecondTable(ka: string, al: string, kb: string, x: map<string, Json>, y: map<string, Json>, asWritten: bool): Table {
    var t := FirstTable(ka, al, x).Put(kb, Server(y));
    if asWritten then t.Put(al, Alias(kb)) else t
  }

  /** A three-entry table: `x` under `ka`, an alias at `al` pointing at
      `target`, `y` under `kb`, and nothing else. */
  predicate Shape(t: Table, ka: string, al: string, kb: string, x: map<string, Json>, target: string, y: map<string, Json>) {
    && t.order == [ka, al, kb] && ka in t.slots && al in t.slots && kb in t.slots
    && t.slots[ka] == Server(x) && t.slots[al] == Alias(target) && t.slots[kb] == Server(y)
  }

  lemma FirstTableKeys(ka: string, al: string, x: map<string, Json>)
    requires ka != al
    ensures FirstTable(ka, al, x).Valid()
    ensures FirstTable(ka, al, x).order == [ka, al]
    ensures FirstTable(ka, al, x).slots == map[ka := Server(x), al := Alias(ka)]
  {
  }

  /** The second table has the three-entry shape. */
  lemma SecondTableValid(ka: string, al: string, kb: string, x: map<string, Json>, y: map<string, Json>, asWritten: bool)
    requires ka != al && ka != kb && al != kb
    ensures SecondTable(ka, al, kb, x, y, asWritten).Valid()
    ensures Shape(SecondTable(ka, al, kb, x, y, asWritten), ka, al, kb, x, if asWritten then kb else ka, y)
  {
    FirstTableKeys(ka, al, x);
    var t := FirstTable(ka, al, x).Put(kb, Server(y));
    assert t.order == [ka, al, kb];
    assert al in t.slots;
  }

  /** The first IPv4 offer of an empty table stores it and its alias. */
  lemma FirstStep(a: map<string, Json>, ka: string, fk: string, asWritten: bool)
    requires KeyFields(a) && "instanceType" in a && ka == PrimaryKey(a) && fk == FallbackKey(a)
    requires !PyText.StartsWith(ka, AliasPrefix) && fk != ka
    ensures Ipv4Step(Empty, JObj(a), asWritten) == Ok(FirstTable(ka, AliasPrefix + fk, a))
  {
    AliasKeyDiffers(fk, ka);
    assert Empty.Put(ka, Server(a)).slots == map[ka := Server(a)];
  }

  /** A second IPv4 offer with the same fallback key rewrites the alias as
      written, and leaves it as intended. */
  lemma SecondStep(a: map<string, Json>, b: map<string, Json>, ka: string, kb: string, fk: string, asWritten: bool)
    requires KeyFields(b) && "instanceType" in b && kb == PrimaryKey(b) && fk == FallbackKey(b)
    requires !PyText.StartsWith(ka, AliasPrefix) && !PyText.StartsWith(kb, AliasPrefix)
    requires ka != kb && fk != ka && fk != kb
    ensures FirstTable(ka, AliasPrefix + fk, a).Valid()
    ensures Ipv4Step(FirstTable(ka, AliasPrefix + fk, a), JObj(b), asWritten) == Ok(SecondTable(ka, AliasPrefix + fk, kb, a, b, asWritten))
  {
    var al := AliasPrefix + fk;
    AliasKeyDiffers(fk, ka);
    AliasKeyDiffers(fk, kb);
    FirstTableKeys(ka, al, a);
    var t := FirstTable(ka, al, a).Put(kb, Server(b));
    assert t.slots == map[ka := Server(a), al := Alias(ka), kb := Server(b)];
    assert AliasGuard(fk, asWritten) in t.slots <==> !asWritten;
  }

  lemma ScenarioKeys(a: map<string, Json>, b: map<string, Json>, c: map<string, Json>)
    requires Scenario(a, b, c)
    ensures PrimaryKey(a) != AliasPrefix + FallbackKey(a) && PrimaryKey(b) != AliasPrefix + FallbackKey(a)
    ensures PyText.StartsWith(AliasPrefix + FallbackKey(a), AliasPrefix)
  {
    AliasKeyDiffers(FallbackKey(a), PrimaryKey(a));
    AliasKeyDiffers(FallbackKey(a), PrimaryKey(b));
  }

  lemma ScenarioIpv4(a: map<string, Json>, b: map<string, Json>, c: map<string, Json>, asWritten: bool)
    requires Scenario(a, b, c)
    ensures AllKeyFields([JObj(a), JObj(b)])
    ensures Ipv4Pass(Empty, [JObj(a), JObj(b)], asWritten) ==
      Ok(SecondTable(PrimaryKey(a), AliasPrefix + FallbackKey(a), PrimaryKey(b), a, b, asWritten))
  {
    var ka, kb, fk := PrimaryKey(a), PrimaryKey(b), FallbackKey(a);
    FirstStep(a, ka, fk, asWritten);
    SecondStep(a, b, ka, kb, fk, asWritten);
    assert AllKeyFields([JObj(a), JObj(b)]);
    PassOfTwo(Empty, JObj(a), JObj(b), asWritten);
  }

  /** A pass over two offers is the two steps, when both succeed. */
  lemma PassOfTwo(t: Table, x: Json, y: Json, asWritten: bool)
    requires t.Valid() && AllKeyFields([x, y])
    requires x.JObj? ==> KeyFields(x.fields)
    requires Ipv4Step(t, x, asWritten).Ok?
    ensures y.JObj? ==> KeyFields(y.fields)
    ensures Ipv4Pass(t, [x, y], asWritten) == Ipv4Pass(Ipv4Step(t, x, asWritten).value, [y], asWritten)
    ensures Ipv4Pass(Ipv4Step(t, x, asWritten).value, [y], asWritten) == Ipv4Step(Ipv4Step(t, x, asWritten).value, y, asWritten)
  {
    var v := [x, y];
    assert v[0] == x && v[1..] == [y];
    assert y in v;
    Ipv4PassCons(t, v, asWritten);
    var t1 := Ipv4Step(t, x, asWritten).value;
    Ipv4PassCons(t1, [y], asWritten);
    assert [y][1..] == [];
  }

  /** An IPv6 offer matching no primary key follows the alias. */
  lemma ShapeMatch(t: Table, ka: string, kb: string, fk: string, a: map<string, Json>, target: string, b: map<string, Json>,
                   c: map<string, Json>)
    requires t.Valid() && Shape(t, ka, AliasPrefix + fk, kb, a, target, b) && (target == ka || target == kb) && target != ""
    requires KeyFields(c) && "instanceType" in c && FallbackKey(c) == fk
    requires PrimaryKey(c) != ka && PrimaryKey(c) != kb && !PyText.StartsWith(PrimaryKey(c), AliasPrefix)
    ensures MatchedKey(t, c) == Ok(Some(target))
  {
    AliasKeyDiffers(fk, PrimaryKey(c));
  }

  lemma ShapeIpv6(t: Table, ka: string, kb: string, fk: string, a: map<string, Json>, target: string, b: map<string, Json>,
                  c: map<string, Json>)
    requires t.Valid() && Shape(t, ka, AliasPrefix + fk, kb, a, target, b) && (target == ka || target == kb) && target != ""
    requires KeyFields(c) && "instanceType" in c && FallbackKey(c) == fk
    requires PrimaryKey(c) != ka && PrimaryKey(c) != kb && !PyText.StartsWith(PrimaryKey(c), AliasPrefix)
    ensures AllKeyFields([JObj(c)])
    ensures Ipv6Pass(t, [JObj(c)]) == Ok(t.Put(target, Server(t.slots[target].fields + Ipv6Fields(c))))
  {
    ShapeMatch(t, ka, kb, fk, a, target, b, c);
    assert AllKeyFields([JObj(c)]);
    Ipv6PassCons(t, [JObj(c)]);
    assert [JObj(c)][1..] == [];
  }

  lemma ShapeValues(t: Table, ka: string, al: string, kb: string, x: map<string, Json>, target: string, y: map<string, Json>)
    requires Shape(t, ka, al, kb, x, target, y)
    requires !PyText.StartsWith(ka, AliasPrefix) && !PyText.StartsWith(kb, AliasPrefix) && PyText.StartsWith(al, AliasPrefix)
    ensures Values(t.order, t.slots) == [JObj(x), JObj(y)]
  {
    var order := t.order;
    assert order[..2] == [ka, al] && order[..2][..1] == [ka] && order[..2][..1][..0] == [];
    assert Values([ka], t.slots) == [JObj(x)];
    assert Values([ka, al], t.slots) == [JObj(x)];
  }

  /** Updating one record of a three-entry table keeps its shape. */
  lemma ShapeUpdate(t: Table, ka: string, al: string, kb: string, x: map<string, Json>, target: string, y: map<string, Json>,
                    k: string, z: map<string, Json>)
    requires t.Valid() && Shape(t, ka, al, kb, x, target, y) && (k == ka || k == kb) && ka != kb
    ensures Shape(t.Put(k, Server(z)), ka, al, kb, if k == ka then z else x, target, if k == kb then z else y)
  {
  }

  /** The merge of the scenario, as written or as intended. */
  lemma ScenarioMergeWith(a: map<string, Json>, b: map<string, Json>, c: map<string, Json>, asWritten: bool)
    requires Scenario(a, b, c)
    ensures AllKeyFields([JObj(a), JObj(b)]) && AllKeyFields([JObj(c)])
    ensures MergeWith([JObj(a), JObj(b)], [JObj(c)], asWritten) ==
      if asWritten then Ok([JObj(a), JObj(b + Ipv6Fields(c))]) else Ok([JObj(a + Ipv6Fields(c)), JObj(b)])
  {
    var ka, kb, fk := PrimaryKey(a), PrimaryKey(b), FallbackKey(a);
    var al := AliasPrefix + fk;
    ScenarioKeys(a, b, c);
    ScenarioIpv4(a, b, c, asWritten);
    SecondTableValid(ka, al, kb, a, b, asWritten);
    var t := SecondTable(ka, al, kb, a, b, asWritten);
    var target := if asWritten then kb else ka;
    ShapeIpv6(t, ka, kb, fk, a, target, b, c);
    var z := (if asWritten then b else a) + Ipv6Fields(c);
    ShapeUpdate(t, ka, al, kb, a, target, b, target, z);
    var t2 := t.Put(target, Server(z));
    ShapeValues(t2, ka, al, kb, if asWritten then a else z, target, if asWritten then z else b);
  }

  /** Whenever two IPv4 offers share a fallback key and an IPv6 offer of
      it comes from a third location, the IPv6 prices land, as written, on
      the second IPv4 offer, and with the intended guard on the first. */
  lemma ScenarioMerge(a: map<string, Json>, b: map<string, Json>, c: map<string, Json>)
    requires Scenario(a, b, c)
    ensures AllKeyFields([JObj(a), JObj(b)]) && AllKeyFields([JObj(c)])
    ensures MergeAsWritten([JObj(a), JObj(b)], [JObj(c)]) == Ok([JObj(a), JObj(b + Ipv6Fields(c))])
    ensures Merge([JObj(a), JObj(b)], [JObj(c)]) == Ok([JObj(a + Ipv6Fields(c)), JObj(b)])
  {
    ScenarioMergeWith(a, b, c, true);
    ScenarioMergeWith(a, b, c, false);
  }

  /** An offer of one server model, CPU and memory in a location. */
  function Offer(loc: string): map<string, Json> {
    map["instanceType" := JStr("AX41"), "location" := JStr(loc), "cpu" := JStr("i7"), "ram" := JStr("64GB")]
  }

  /** Two IPv4 offers of the model in two locations, and an IPv6 offer of
      it in a third location. */
  const OfferFsn := Offer("FSN1")
  const OfferHel := Offer("HEL1")
  const OfferNbg := Offer("NBG1")["priceEUR_monthly_net_ipv6" := JReal(39.0)]

  lemma OfferKeyFields(loc: string)
    ensures KeyFields(Offer(loc)) && "instanceType" in Offer(loc)
  {
  }

  lemma OfferKeys(loc: string)
    ensures KeyFields(Offer(loc))
    ensures PrimaryKey(Offer(loc)) == "AX41" + "_" + loc
    ensures FallbackKey(Offer(loc)) == "AX41" + "_" + "i7" + "_" + "64GB"
  {
    OfferKeyFields(loc);
  }

  /** The IPv6 offer's extra price leaves its keys those of a plain offer. */
  lemma NbgKeys()
    ensures KeyFields(OfferNbg) && "instanceType" in OfferNbg
    ensures PrimaryKey(OfferNbg) == PrimaryKey(Offer("NBG1")) && FallbackKey(OfferNbg) == FallbackKey(Offer("NBG1"))
  {
    OfferKeyFields("NBG1");
    var d := OfferNbg;
    assert d["instanceType"] == JStr("AX41") && d["location"] == JStr("NBG1");
    assert d["cpu"] == JStr("i7") && d["ram"] == JStr("64GB");
  }

  /** The three primary keys differ in their sixth character; none starts
      like the alias prefix, and the fallback key is shorter than each. */
  lemma ExampleKeysDiffer(fsn: string, hel: string, nbg: string, fk: string)
    requires fsn == "AX41" + "_" + "FSN1" && hel == "AX41" + "_" + "HEL1" && nbg == "AX41" + "_" + "NBG1"
    requires fk == "AX41" + "_" + "i7" + "_" + "64GB"
    ensures fsn != hel && nbg != fsn && nbg != hel && fk != fsn && fk != hel && fsn != "" && hel != ""
    ensures !PyText.StartsWith(fsn, AliasPrefix) && !PyText.StartsWith(hel, AliasPrefix)
    ensures !PyText.StartsWith(nbg, AliasPrefix)
  {
    assert fsn[5] == 'F' && hel[5] == 'H' && nbg[5] == 'N';
    assert fsn[0] == 'A' && hel[0] == 'A' && nbg[0] == 'A' && AliasPrefix[0] == 'f';
    assert fk[5] == 'i';
  }

  lemma ExampleScenario()
    ensures Scenario(OfferFsn, OfferHel, OfferNbg)
  {
    OfferKeys("FSN1");
    OfferKeys("HEL1");
    OfferKeys("NBG1");
    NbgKeys();
    ExampleKeysDiffer(PrimaryKey(OfferFsn), PrimaryKey(OfferHel), PrimaryKey(OfferNbg), FallbackKey(OfferFsn));
  }

  /** As written, the IPv6 prices of the NBG1 offer land on the HEL1 offer;
      with the intended guard they land on the FSN1 offer. */
  lemma AliasGuardExample()
    ensures AllKeyFields([JObj(OfferFsn), JObj(OfferHel)]) && AllKeyFields([JObj(OfferNbg)])
    ensures MergeAsWritten([JObj(OfferFsn), JObj(OfferHel)], [JObj(OfferNbg)]) ==
      Ok([JObj(OfferFsn), JObj(OfferHel + Ipv6Fields(OfferNbg))])
    ensures Merge([JObj(OfferFsn), JObj(OfferHel)], [JObj(OfferNbg)]) ==
      Ok([JObj(OfferFsn + Ipv6Fields(OfferNbg)), JObj(OfferHel)])
  {
    ExampleScenario();
    ScenarioMerge(OfferFsn, OfferHel, OfferNbg);
  }
}
