/** The Oracle Cloud Infrastructure collector (`scripts/fetch_oci.py`):
    classifying pricing-API items as compute instances, reading vCPU and
    memory figures out of a product name, building records from pricing
    items and from compute shape definitions, and the chain of sources that
    `collect_all_oci_data` falls back through. The pricing response, the
    shape lists and the timestamp are parameters. The pricing path takes a
    flag `asWritten`: set, it reads names with the extraction as written
    (`SpecsAsWritten`); clear, with the evidently intended patterns
    (`SpecsFromName`). */
module Oci {

  import opened Wrappers
  import opened PyJson
  import PyText
  import SeqFilter
  import V2 = HetznerV2Collect

  /** Hours in the average month used for monthly prices. */
  const HoursPerMonth: real := 730.44

  /** The price per hour assumed for a shape without pricing. */
  const DefaultShapePrice: real := 0.05

  // ---------------------------------------------------------------------
  // Regions

  datatype Region = Region(code: string, name: string, country: string, countryCode: string)

  /** The collector's region table, in its insertion order. */
  const Regions: seq<Region> := [
    Region("us-ashburn-1", "US East (Ashburn)", "United States", "US"),
    Region("us-phoenix-1", "US West (Phoenix)", "United States", "US"),
    Region("ca-toronto-1", "Canada Southeast (Toronto)", "Canada", "CA"),
    Region("ca-montreal-1", "Canada Southeast (Montreal)", "Canada", "CA"),
    Region("eu-frankfurt-1", "Germany Central (Frankfurt)", "Germany", "DE"),
    Region("eu-zurich-1", "Switzerland North (Zurich)", "Switzerland", "CH"),
    Region("eu-amsterdam-1", "Netherlands Northwest (Amsterdam)", "Netherlands", "NL"),
    Region("eu-london-1", "UK South (London)", "United Kingdom", "GB"),
    Region("ap-mumbai-1", "India West (Mumbai)", "India", "IN"),
    Region("ap-seoul-1", "South Korea Central (Seoul)", "South Korea", "KR"),
    Region("ap-tokyo-1", "Japan East (Tokyo)", "Japan", "JP"),
    Region("ap-osaka-1", "Japan Central (Osaka)", "Japan", "JP"),
    Region("ap-sydney-1", "Australia East (Sydney)", "Australia", "AU"),
    Region("ap-melbourne-1", "Australia Southeast (Melbourne)", "Australia", "AU"),
    Region("sa-saopaulo-1", "Brazil East (Sao Paulo)", "Brazil", "BR"),
    Region("uk-london-1", "UK South (London)", "United Kingdom", "GB"),
    Region("me-jeddah-1", "Saudi Arabia West (Jeddah)", "Saudi Arabia", "SA"),
    Region("ap-singapore-1", "Singapore", "Singapore", "SG"),
    Region("eu-milan-1", "Italy Northwest (Milan)", "Italy", "IT")
  ]

  /** `s.rstrip(c)`. */
  function StripTrailing(s: string, c: char): (r: string)
    ensures r <= s && (r == [] || r[|r| - 1] != c)
    ensures forall i :: |r| <= i < |s| ==> s[i] == c
  {
    if s != [] && s[|s| - 1] == c then StripTrailing(s[..|s| - 1], c) else s
  }

  /** The city of a region name: `name.split('(')[1].rstrip(')')` when the
      name has a `(`, the whole name otherwise. */
  function City(name: string): string {
    match PyText.IndexOf(name, '(')
    case None => name
    case Some(k) =>
      var after := name[k + 1..];
      var piece := match PyText.IndexOf(after, '(') case None => after case Some(j) => after[..j];
      StripTrailing(piece, ')')
  }

  /** A name of the form `prefix (city)` gives `city`; a name without a
      parenthesis is its own city. */
  lemma CityOf(prefix: string, city: string)
    requires '(' !in prefix && '(' !in city && (city == [] || city[|city| - 1] != ')')
    ensures City(prefix + "(" + city + ")") == city
    ensures City(prefix) == prefix
  {
    var name := prefix + "(" + city + ")";
    assert name[..|prefix|] == prefix && name[|prefix|] == '(';
    assert PyText.IndexOf(name, '(') == Some(|prefix|);
    assert name[|prefix| + 1..] == city + ")";
    assert PyText.IndexOf(city + ")", '(') == None by {
      assert forall i :: 0 <= i < |city + ")"| ==> (city + ")")[i] != '(';
    }
    assert (city + ")")[..|city|] == city;
  }

  function RegionCodes(): seq<Json> {
    seq(|Regions|, i requires 0 <= i < |Regions| => JStr(Regions[i].code))
  }

  function RegionDetail(r: Region): Json {
    JObj(map["code" := JStr(r.code), "city" := JStr(City(r.name)), "country" := JStr(r.country),
             "countryCode" := JStr(r.countryCode), "region" := JStr(r.name)])
  }

  function RegionDetails(): seq<Json> {
    seq(|Regions|, i requires 0 <= i < |Regions| => RegionDetail(Regions[i]))
  }

  // ---------------------------------------------------------------------
  // Classifying pricing items

  const ComputeKeywords: seq<string> := ["compute", "instance", "vm", "virtual machine"]

  /** `item.get(k, '').lower()`: only a string can be lower-cased. */
  function LowerField(item: map<string, Json>, k: string): Result<string> {
    var v := Lookup(item, k, JStr(""));
    if v.JStr? then Ok(PyText.Lower(v.s)) else Err(AttributeError)
  }

  /** `_is_compute_instance`: some keyword occurs in the lower-cased name,
      service or SKU. */
  function IsComputeInstance(item: Json): Result<bool> {
    if !item.JObj? then Err(AttributeError)
    else
      var name, service, sku := LowerField(item.fields, "name"), LowerField(item.fields, "service"), LowerField(item.fields, "sku");
      if name.Err? || service.Err? || sku.Err? then Err(AttributeError)
      else Ok(exists kw :: kw in ComputeKeywords &&
                (PyText.Contains(name.value, kw) || PyText.Contains(service.value, kw) || PyText.Contains(sku.value, kw)))
  }

  lemma LowerOfUpper(s: string)
    ensures PyText.Lower(PyText.Upper(s)) == PyText.Lower(s)
  {
    assert forall i :: 0 <= i < |s| ==> PyText.LowerChar(PyText.UpperChar(s[i])) == PyText.LowerChar(s[i]);
  }

  /** The classification ignores the letter case of the name. */
  lemma ComputeIgnoresCase(item: map<string, Json>, name: string)
    ensures IsComputeInstance(JObj(item["name" := JStr(name)])) ==
            IsComputeInstance(JObj(item["name" := JStr(PyText.Upper(name))]))
  {
    LowerOfUpper(name);
    assert LowerField(item["name" := JStr(name)], "name") == LowerField(item["name" := JStr(PyText.Upper(name))], "name");
  }

  // ---------------------------------------------------------------------
  // Reading specifications out of a name

  /** A pattern `(\d+)\s*KEYWORD`, or `(\d+)KEYWORD` when not `spaced`. */
  datatype Pattern = Pattern(keyword: string, spaced: bool)

  /** The patterns as the source writes them; they are searched for in the
      upper-cased name. */
  const VcpuPatternsAsWritten: seq<Pattern> := [Pattern("OCPU", true), Pattern("vCPU", true), Pattern("CPU", true), Pattern("Core", true)]
  const MemoryPatternsAsWritten: seq<Pattern> := [Pattern("GB", true), Pattern("GiB", true), Pattern("GB", false)]

  /** The same patterns in the case of the text they are searched in. */
  const VcpuPatterns: seq<Pattern> := [Pattern("OCPU", true), Pattern("VCPU", true), Pattern("CPU", true), Pattern("CORE", true)]
  const MemoryPatterns: seq<Pattern> := [Pattern("GB", true), Pattern("GIB", true), Pattern("GB", false)]

  /** The length of the run of digits starting at `i`. */
  function DigitRun(s: string, i: nat): (n: nat)
    requires i <= |s|
    ensures i + n <= |s| && PyText.AllDigits(s[i..i + n]) && (i + n == |s| || !PyText.IsDigit(s[i + n]))
    decreases |s| - i
  {
    if i < |s| && PyText.IsDigit(s[i]) then
      var n := DigitRun(s, i + 1);
      var run := s[i..i + 1 + n];
      assert run == [s[i]] + s[i + 1..i + 1 + n];
      assert forall k :: 1 <= k < |run| ==> run[k] == s[i + 1..i + 1 + n][k - 1];
      1 + n
    else 0
  }

  /** The length of the run of whitespace starting at `i`. */
  function SpaceRun(s: string, i: nat): (n: nat)
    requires i <= |s|
    ensures i + n <= |s|
    decreases |s| - i
  {
    if i < |s| && PyText.IsSpace(s[i]) then 1 + SpaceRun(s, i + 1) else 0
  }

  /** The pattern matches starting at `i`. Greedy matching takes the whole
      digit run and the whole space run: a keyword starting with a letter
      cannot match inside either. */
  predicate MatchesAt(s: string, i: nat, p: Pattern)
    requires i <= |s|
  {
    && i < |s| && PyText.IsDigit(s[i])
    && var j := i + DigitRun(s, i);
    && var k := if p.spaced then j + SpaceRun(s, j) else j;
    && p.keyword <= s[k..]
  }

  /** `re.search`: the number captured by the leftmost match. */
  function SearchFrom(s: string, p: Pattern, i: nat): Option<nat>
    requires i <= |s|
    decreases |s| - i
  {
    if i == |s| then None
    else if MatchesAt(s, i, p) then Some(PyText.DigitsValue(s[i..i + DigitRun(s, i)]))
    else SearchFrom(s, p, i + 1)
  }

  function Search(s: string, p: Pattern): Option<nat> {
    SearchFrom(s, p, 0)
  }

  /** The number matched by the first pattern, in order, that matches. */
  function FirstMatch(s: string, patterns: seq<Pattern>): Option<(nat, Pattern)> {
    if patterns == [] then None
    else
      match Search(s, patterns[0])
      case Some(v) => Some((v, patterns[0]))
      case None => FirstMatch(s, patterns[1..])
  }

  datatype Specs = Specs(vcpu: nat, memory: nat)

  /** An OCPU count is two vCPUs; no match leaves the default of 1. */
  function VcpuOf(m: Option<(nat, Pattern)>): nat {
    match m
    case None => 1
    case Some((v, p)) => if PyText.Contains(p.keyword, "OCPU") then v * 2 else v
  }

  function MemoryOf(m: Option<(nat, Pattern)>): nat {
    match m
    case None => 1
    case Some((v, _)) => v
  }

  /** `_extract_specs_from_name` with the given pattern lists. */
  function SpecsWith(name: string, vcpuPatterns: seq<Pattern>, memoryPatterns: seq<Pattern>): Specs {
    var upper := PyText.Upper(name);
    Specs(VcpuOf(FirstMatch(upper, vcpuPatterns)), MemoryOf(FirstMatch(upper, memoryPatterns)))
  }

  /** The extraction as written. */
  function SpecsAsWritten(name: string): Specs {
    SpecsWith(name, VcpuPatternsAsWritten, MemoryPatternsAsWritten)
  }

  /** The extraction with patterns that can match the upper-cased name. */
  function SpecsFromName(name: string): Specs {
    SpecsWith(name, VcpuPatterns, MemoryPatterns)
  }

  /** The two pattern loops, each stopping at the first pattern that
      matches. */
  method ExtractSpecs(name: string, vcpuPatterns: seq<Pattern>, memoryPatterns: seq<Pattern>) returns (specs: Specs)
    ensures specs == SpecsWith(name, vcpuPatterns, memoryPatterns)
  {
    var upper := PyText.Upper(name);
    var vcpu := 1;
    var i := 0;
    while i < |vcpuPatterns|
      invariant 0 <= i <= |vcpuPatterns|
      invariant FirstMatch(upper, vcpuPatterns[i..]) == FirstMatch(upper, vcpuPatterns)
    {
      assert vcpuPatterns[i..][1..] == vcpuPatterns[i + 1..];
      var m := Search(upper, vcpuPatterns[i]);
      if m.Some? {
        vcpu := m.value;
        if PyText.Contains(vcpuPatterns[i].keyword, "OCPU") {
          vcpu := vcpu * 2;
        }
        break;
      }
      i := i + 1;
    }
    var memory := 1;
    var j := 0;
    while j < |memoryPatterns|
      invariant 0 <= j <= |memoryPatterns|
      invariant FirstMatch(upper, memoryPatterns[j..]) == FirstMatch(upper, memoryPatterns)
    {
      assert memoryPatterns[j..][1..] == memoryPatterns[j + 1..];
      var m := Search(upper, memoryPatterns[j]);
      if m.Some? {
        memory := m.value;
        break;
      }
      j := j + 1;
    }
    specs := Specs(vcpu, memory);
  }

  predicate HasLowerLetter(s: string) {
    exists i :: 0 <= i < |s| && 'a' <= s[i] <= 'z'
  }

  predicate NoLowerLetter(s: string) {
    forall i :: 0 <= i < |s| ==> !('a' <= s[i] <= 'z')
  }

  lemma UpperHasNoLowerLetter(name: string)
    ensures NoLowerLetter(PyText.Upper(name))
  {
  }

  /** A keyword holding a lower-case letter is never a prefix of any
      suffix of a text without one. */
  lemma LowerKeywordNotPrefix(keyword: string, s: string, k: nat)
    requires HasLowerLetter(keyword) && NoLowerLetter(s) && k <= |s|
    ensures !(keyword <= s[k..])
  {
    var c :| 0 <= c < |keyword| && 'a' <= keyword[c] <= 'z';
    if c < |s| - k {
      assert s[k..][c] == s[k + c] && keyword[c] != s[k + c];
    }
  }

  /** No match of such a keyword starts at or after `i`. */
  lemma {:induction false} LowerKeywordNeverMatchesFrom(s: string, p: Pattern, i: nat)
    requires HasLowerLetter(p.keyword) && NoLowerLetter(s) && i <= |s|
    ensures SearchFrom(s, p, i) == None
    decreases |s| - i
  {
    if i < |s| {
      if PyText.IsDigit(s[i]) {
        var j := i + DigitRun(s, i);
        var k := if p.spaced then j + SpaceRun(s, j) else j;
        LowerKeywordNotPrefix(p.keyword, s, k);
      }
      LowerKeywordNeverMatchesFrom(s, p, i + 1);
    }
  }

  /** A keyword holding a lower-case letter never matches upper-cased
      text. */
  lemma LowerKeywordNeverMatches(name: string, p: Pattern, i: nat)
    requires HasLowerLetter(p.keyword) && i <= |name|
    ensures SearchFrom(PyText.Upper(name), p, i) == None
  {
    UpperHasNoLowerLetter(name);
    LowerKeywordNeverMatchesFrom(PyText.Upper(name), p, i);
  }

  /** A pattern that does not match can be dropped from the list. */
  lemma {:induction false} FirstMatchDrop(s: string, ps: seq<Pattern>, k: nat)
    requires k < |ps| && Search(s, ps[k]) == None
    ensures FirstMatch(s, ps) == FirstMatch(s, ps[..k] + ps[k + 1..])
  {
    var dropped := ps[..k] + ps[k + 1..];
    if k == 0 {
      assert dropped == ps[1..];
    } else {
      assert dropped[0] == ps[0];
      assert dropped[1..] == ps[1..][..k - 1] + ps[1..][k..];
      FirstMatchDrop(s, ps[1..], k - 1);
    }
  }

  /** As written, the `vCPU`, `Core` and `GiB` patterns are dead: the
      extraction is the one with only the upper-case patterns. */
  lemma AsWrittenIgnoresMixedCasePatterns(name: string)
    ensures SpecsAsWritten(name) ==
      SpecsWith(name, [Pattern("OCPU", true), Pattern("CPU", true)], [Pattern("GB", true), Pattern("GB", false)])
  {
    var s := PyText.Upper(name);
    assert HasLowerLetter("vCPU") by { assert "vCPU"[0] == 'v'; }
    assert HasLowerLetter("Core") by { assert "Core"[1] == 'o'; }
    assert HasLowerLetter("GiB") by { assert "GiB"[1] == 'i'; }
    LowerKeywordNeverMatches(name, Pattern("vCPU", true), 0);
    LowerKeywordNeverMatches(name, Pattern("Core", true), 0);
    LowerKeywordNeverMatches(name, Pattern("GiB", true), 0);
    var v := VcpuPatternsAsWritten;
    FirstMatchDrop(s, v, 3);
    var v3 := v[..3] + v[4..];
    assert v3 == [Pattern("OCPU", true), Pattern("vCPU", true), Pattern("CPU", true)];
    FirstMatchDrop(s, v3, 1);
    assert v3[..1] + v3[2..] == [Pattern("OCPU", true), Pattern("CPU", true)];
    var m := MemoryPatternsAsWritten;
    FirstMatchDrop(s, m, 1);
    assert m[..1] + m[2..] == [Pattern("GB", true), Pattern("GB", false)];
  }

  /** No match can start in a stretch without digits. */
  lemma {:induction false} NoDigitNoMatch(s: string, p: Pattern, i: nat)
    requires i <= |s| && forall j :: i <= j < |s| ==> !PyText.IsDigit(s[j])
    ensures SearchFrom(s, p, i) == None
    decreases |s| - i
  {
    if i < |s| {
      NoDigitNoMatch(s, p, i + 1);
    }
  }

  /** A word that starts with no whitespace and holds no digit. */
  predicate PlainWord(w: string) {
    w != [] && !PyText.IsSpace(w[0]) && forall j :: 0 <= j < |w| ==> !PyText.IsDigit(w[j])
  }

  lemma PlainWords()
    ensures PlainWord("VCPU") && PlainWord("GIB")
  {
  }

  /** On a text made of one digit, one space and a word, a spaced pattern
      matches exactly when the word starts with its keyword. */
  lemma DigitSpaceWord(d: char, word: string, p: Pattern)
    requires PyText.IsDigit(d) && p.spaced && PlainWord(word)
    ensures Search([d, ' '] + word, p) == if p.keyword <= word then Some(PyText.DigitValue(d)) else None
  {
    var s := [d, ' '] + word;
    assert DigitRun(s, 1) == 0;
    assert DigitRun(s, 0) == 1;
    assert SpaceRun(s, 2) == 0;
    assert SpaceRun(s, 1) == 1;
    assert s[2..] == word;
    assert s[0..1] == [d];
    assert PyText.DigitsValue([d]) == PyText.DigitValue(d) by {
      assert [d][..0] == [];
    }
    NoDigitNoMatch(s, p, 1);
  }

  lemma UpperVcpuName()
    ensures PyText.Upper("4 vCPU") == ['4', ' '] + "VCPU"
  {
  }

  lemma UpperGibName()
    ensures PyText.Upper("8 GiB") == ['8', ' '] + "GIB"
  {
  }

  lemma VcpuAsWritten()
    ensures SpecsAsWritten("4 vCPU").vcpu == 1
  {
    var s := PyText.Upper("4 vCPU");
    PlainWords();
    DigitSpaceWord('4', "VCPU", Pattern("OCPU", true));
    DigitSpaceWord('4', "VCPU", Pattern("CPU", true));
    UpperVcpuName();
    AsWrittenIgnoresMixedCasePatterns("4 vCPU");
    var u: seq<Pattern> := [Pattern("OCPU", true), Pattern("CPU", true)];
    assert u[1..] == [Pattern("CPU", true)] && u[1..][1..] == [];
    assert FirstMatch(s, u) == None;
  }

  lemma VcpuCorrected()
    ensures SpecsFromName("4 vCPU").vcpu == 4
  {
    var s := PyText.Upper("4 vCPU");
    PlainWords();
    UpperVcpuName();
    DigitSpaceWord('4', "VCPU", Pattern("OCPU", true));
    DigitSpaceWord('4', "VCPU", Pattern("VCPU", true));
    assert VcpuPatterns[1..] == [Pattern("VCPU", true), Pattern("CPU", true), Pattern("CORE", true)];
    assert FirstMatch(s, VcpuPatterns) == Some((4, Pattern("VCPU", true)));
    assert !PyText.Contains("VCPU", "OCPU");
  }

  /** A number followed by a space and `vCPU` is read by the corrected
      patterns but left at the default by the patterns as written. */
  lemma VcpuExample()
    ensures SpecsAsWritten("4 vCPU").vcpu == 1
    ensures SpecsFromName("4 vCPU").vcpu == 4
  {
    VcpuAsWritten();
    VcpuCorrected();
  }

  /** Neither `GB` pattern matches the upper-cased `8 GiB`. */
  lemma GbMisses()
    ensures var s := PyText.Upper("8 GiB");
      Search(s, Pattern("GB", true)) == None && Search(s, Pattern("GB", false)) == None
  {
    var s := PyText.Upper("8 GiB");
    PlainWords();
    UpperGibName();
    DigitSpaceWord('8', "GIB", Pattern("GB", true));
    assert DigitRun(s, 0) == 1 by { assert DigitRun(s, 1) == 0; }
    NoDigitNoMatch(s, Pattern("GB", false), 1);
  }

  lemma MemoryAsWritten()
    ensures SpecsAsWritten("8 GiB").memory == 1
  {
    var s := PyText.Upper("8 GiB");
    GbMisses();
    AsWrittenIgnoresMixedCasePatterns("8 GiB");
    var w: seq<Pattern> := [Pattern("GB", true), Pattern("GB", false)];
    assert w[1..] == [Pattern("GB", false)] && w[1..][1..] == [];
  }

  lemma MemoryCorrected()
    ensures SpecsFromName("8 GiB").memory == 8
  {
    var s := PyText.Upper("8 GiB");
    PlainWords();
    UpperGibName();
    DigitSpaceWord('8', "GIB", Pattern("GB", true));
    DigitSpaceWord('8', "GIB", Pattern("GIB", true));
    assert MemoryPatterns[0] == Pattern("GB", true);
    assert MemoryPatterns[1..] == [Pattern("GIB", true), Pattern("GB", false)];
    assert FirstMatch(s, MemoryPatterns[1..]) == Some((8, Pattern("GIB", true)));
  }

  /** Likewise a memory size in `GiB`. */
  lemma MemoryExample()
    ensures SpecsAsWritten("8 GiB").memory == 1
    ensures SpecsFromName("8 GiB").memory == 8
  {
    MemoryAsWritten();
    MemoryCorrected();
  }

  /** An OCPU count is doubled. */
  lemma OcpuDoubled(name: string)
    requires Search(PyText.Upper(name), Pattern("OCPU", true)).Some?
    ensures SpecsFromName(name).vcpu == 2 * Search(PyText.Upper(name), Pattern("OCPU", true)).value
    ensures SpecsAsWritten(name).vcpu == SpecsFromName(name).vcpu
  {
    assert PyText.Contains("OCPU", "OCPU");
  }

  // ---------------------------------------------------------------------
  // Records from pricing items

  /** The architecture guessed from a product name. */
  function Architecture(name: string): string {
    var lower := PyText.Lower(name);
    if PyText.Contains(lower, "amd") || PyText.Contains(lower, "intel") then "x86"
    else if PyText.Contains(lower, "ampere") then "ARM"
    else "x86"
  }

  /** The record of a pricing item (the keys read most often come last;
      order is immaterial in a map). */
  function PricingFields(name: string, sku: Json, price: real, specs: Specs, now: string): Json {
    JObj(map[
      "provider" := JStr("oci"),
      "type" := JStr("cloud-server"),
      "regions" := JArr(RegionCodes()),
      "locationDetails" := JArr(RegionDetails()),
      "source" := JStr("oci_pricing_api"),
      "description" := JStr("OCI " + name),
      "lastUpdated" := JStr(now),
      "architecture" := JStr(Architecture(name)),
      "oci_metadata" := JObj(map["sku" := sku, "original_name" := JStr(name)]),
      "memoryGiB" := JInt(specs.memory),
      "vCPU" := JInt(specs.vcpu),
      "instanceType" := if Truthy(sku) then sku else JStr(name),
      "priceUSD_hourly" := JReal(price),
      "priceUSD_monthly" := JReal(price * HoursPerMonth)
    ])
  }

  /** The specs read from a name: by the patterns as written, or by the
      evidently intended upper-case patterns. */
  function NameSpecs(name: string, asWritten: bool): Specs {
    if asWritten then SpecsAsWritten(name) else SpecsFromName(name)
  }

  /** `_parse_pricing_item`: `None` when reading the item raises. With
      `asWritten` the specs come from the extraction as written. */
  function ParsePricingItem(item: Json, now: string, asWritten: bool): Option<Json> {
    if !item.JObj? then None
    else
      var name := Lookup(item.fields, "name", JStr(""));
      var price := Float(Lookup(item.fields, "price", JInt(0)));
      if !name.JStr? || price.Err? then None
      else Some(PricingFields(name.s, Lookup(item.fields, "sku", JStr("")), price.value, NameSpecs(name.s, asWritten), now))
  }

  lemma PricingFieldsPrices(name: string, sku: Json, price: real, specs: Specs, now: string)
    ensures var r := PricingFields(name, sku, price, specs, now).fields;
      r["priceUSD_hourly"] == JReal(price) && r["priceUSD_monthly"] == JReal(price * HoursPerMonth)
  {
  }

  lemma PricingFieldsSizes(name: string, sku: Json, price: real, specs: Specs, now: string)
    ensures var r := PricingFields(name, sku, price, specs, now).fields;
      && r["instanceType"] == (if Truthy(sku) then sku else JStr(name))
      && r["vCPU"] == JInt(specs.vcpu) && r["memoryGiB"] == JInt(specs.memory)
  {
  }

  /** A parsed item is priced per month at 730.44 hours, named by its SKU
      or by its name when the SKU is empty, and sized by the figures in its
      name, as written or corrected. */
  lemma PricingItemRecord(item: Json, now: string, asWritten: bool)
    requires ParsePricingItem(item, now, asWritten).Some?
    ensures var r := ParsePricingItem(item, now, asWritten).value.fields;
      var sku := Lookup(item.fields, "sku", JStr(""));
      var name := Lookup(item.fields, "name", JStr(""));
      && name.JStr? && Float(Lookup(item.fields, "price", JInt(0))).Ok?
      && r["priceUSD_hourly"] == JReal(Float(Lookup(item.fields, "price", JInt(0))).value)
      && r["priceUSD_monthly"] == JReal(Float(Lookup(item.fields, "price", JInt(0))).value * HoursPerMonth)
      && r["instanceType"] == (if Truthy(sku) then sku else name)
      && r["vCPU"] == JInt(NameSpecs(name.s, asWritten).vcpu)
      && r["memoryGiB"] == JInt(NameSpecs(name.s, asWritten).memory)
  {
    var name := Lookup(item.fields, "name", JStr(""));
    var sku := Lookup(item.fields, "sku", JStr(""));
    var price := Float(Lookup(item.fields, "price", JInt(0))).value;
    var specs := NameSpecs(name.s, asWritten);
    PricingFieldsPrices(name.s, sku, price, specs, now);
    PricingFieldsSizes(name.s, sku, price, specs, now);
  }

  /** A priced item named `4 vCPU` is recorded with one vCPU as written,
      and with four by the intended patterns. */
  lemma PricingItemVcpuExample(now: string)
    ensures var item := JObj(map["name" := JStr("4 vCPU"), "sku" := JStr("B1"), "price" := JReal(0.1)]);
      && ParsePricingItem(item, now, true).Some? && ParsePricingItem(item, now, false).Some?
      && ParsePricingItem(item, now, true).value.fields["vCPU"] == JInt(1)
      && ParsePricingItem(item, now, false).value.fields["vCPU"] == JInt(4)
  {
    var item := JObj(map["name" := JStr("4 vCPU"), "sku" := JStr("B1"), "price" := JReal(0.1)]);
    assert Lookup(item.fields, "name", JStr("")) == JStr("4 vCPU");
    assert Float(Lookup(item.fields, "price", JInt(0))).Ok?;
    VcpuExample();
    PricingItemRecord(item, now, true);
    PricingItemRecord(item, now, false);
  }

  /** The record the pricing loop keeps from one item, if any. */
  function ComputeInstanceRecord(item: Json, now: string, asWritten: bool): Option<Json> {
    if IsComputeInstance(item) == Ok(true) then ParsePricingItem(item, now, asWritten) else None
  }

  /** `ComputeInstanceRecord` as a function value, for `FilterMap`. */
  function ComputeRecord(now: string, asWritten: bool): Json -> Option<Json> {
    (item: Json) => ComputeInstanceRecord(item, now, asWritten)
  }

  /** Whether classifying an item raises, which ends the pricing loop. */
  function ClassifyRaises(): Json -> bool {
    (item: Json) => IsComputeInstance(item).Err?
  }

  /** The loop of `_fetch_from_pricing_api`: an item whose classification
      raises ends the loop, and the records gathered so far are kept. */
  function PricingLoop(items: seq<Json>, now: string, asWritten: bool): seq<Json> {
    SeqFilter.TakeFilterMap(items, ClassifyRaises(), ComputeRecord(now, asWritten))
  }

  /** `_fetch_from_pricing_api` given the response status and decoded body
      (`None` when the body is not JSON). */
  function PricingApiInstances(status: int, body: Option<Json>, now: string, asWritten: bool): seq<Json> {
    if status != 200 || body.None? then []
    else
      var data := body.value;
      if data.JObj? && "items" in data.fields then
        match V2.Elements(data.fields["items"])
        case Err(_) => []
        case Ok(items) => PricingLoop(items, now, asWritten)
      else if data.JArr? then PricingLoop(data.items, now, asWritten)
      else []
  }

  method FetchFromPricingApi(status: int, body: Option<Json>, now: string, asWritten: bool) returns (instances: seq<Json>)
    ensures instances == PricingApiInstances(status, body, now, asWritten)
  {
    instances := [];
    if status != 200 || body.None? {
      return;
    }
    var data := body.value;
    var items: seq<Json>;
    if data.JObj? && "items" in data.fields {
      var listing := V2.Elements(data.fields["items"]);
      if listing.Err? {
        return;
      }
      items := listing.value;
    } else if data.JArr? {
      items := data.items;
    } else {
      return;
    }
    instances := SeqFilter.CollectUntil(items, ClassifyRaises(), ComputeRecord(now, asWritten));
  }

  /** The pricing loop keeps the compute records of the items before the
      first one whose classification raises, in order. */
  lemma PricingLoopPrefix(items: seq<Json>, now: string, asWritten: bool, k: nat)
    requires k <= |items| && (forall i :: 0 <= i < k ==> IsComputeInstance(items[i]).Ok?)
    requires k == |items| || IsComputeInstance(items[k]).Err?
    ensures PricingLoop(items, now, asWritten) == SeqFilter.FilterMap(items[..k], ComputeRecord(now, asWritten))
  {
    SeqFilter.TakeFilterMapPrefix(items, ClassifyRaises(), ComputeRecord(now, asWritten), k);
  }

  // ---------------------------------------------------------------------
  // Records from compute shapes

  predicate IntLike(j: Json) {
    j.JInt? || j.JBool?
  }

  function IntValue(j: Json): int
    requires IntLike(j)
  {
    if j.JInt? then j.i else if j.b then 1 else 0
  }

  /** Python's `a * b` on numbers: an `int` when both are integers. */
  function Mul(a: Json, b: Json): (r: Result<Json>)
    ensures r.Ok? <==> IsNumber(a) && IsNumber(b)
    ensures r.Ok? ==> IsNumber(r.value) && NumValue(r.value) == NumValue(a) * NumValue(b)
  {
    if !IsNumber(a) || !IsNumber(b) then Err(TypeError)
    else if IntLike(a) && IntLike(b) then Ok(JInt(IntValue(a) * IntValue(b)))
    else Ok(JReal(NumValue(a) * NumValue(b)))
  }

  /** Python's `a + b` on numbers. */
  function Add(a: Json, b: Json): (r: Result<Json>)
    ensures r.Ok? <==> IsNumber(a) && IsNumber(b)
    ensures r.Ok? ==> IsNumber(r.value) && NumValue(r.value) == NumValue(a) + NumValue(b)
  {
    if !IsNumber(a) || !IsNumber(b) then Err(TypeError)
    else if IntLike(a) && IntLike(b) then Ok(JInt(IntValue(a) + IntValue(b)))
    else Ok(JReal(NumValue(a) + NumValue(b)))
  }

  /** The hourly price of a shape: its own `price_hourly`, else its OCPU
      and memory priced at the per-unit rates when it has both, else the
      default estimate. */
  function ShapePrice(shape: map<string, Json>, ocpu: Json, memory: Json): Result<Json> {
    if "price_hourly" in shape then Ok(shape["price_hourly"])
    else if "price_per_ocpu" in shape && "price_per_gb" in shape then
      match Mul(ocpu, shape["price_per_ocpu"])
      case Err(e) => Err(e)
      case Ok(cores) =>
        match Mul(memory, shape["price_per_gb"])
        case Err(e) => Err(e)
        case Ok(mem) => Add(cores, mem)
    else Ok(JReal(DefaultShapePrice))
  }

  /** An ARM OCPU is one vCPU; any other is two. */
  function ShapeVcpu(arch: Json, ocpu: Json): Result<Json> {
    if arch == JStr("ARM") then Ok(ocpu) else Mul(ocpu, JInt(2))
  }

  /** The shape's metadata: the keys for storage, a GPU and the free-tier
      note are never among the three base keys, so the two parts can be
      joined in either order. */
  function ShapeMetadata(shape: map<string, Json>, name: string, ocpu: Json): map<string, Json> {
    var withStorage := if "storage" in shape then map["storage" := shape["storage"]] else map[];
    var withGpu := if "gpu" in shape then withStorage["gpu" := shape["gpu"]] else withStorage;
    var extras := if Truthy(Lookup(shape, "free_tier", JNull)) then withGpu["pricing_note" := JStr("Always Free or Free Trial eligible")] else withGpu;
    extras + map[
      "ocpu_count" := ocpu,
      "free_tier_eligible" := Lookup(shape, "free_tier", JBool(false)),
      "shape_type" := JStr(if PyText.Contains(name, "Flex") then "flexible" else "fixed")]
  }

  lemma MetadataLabels(shape: map<string, Json>, name: string, ocpu: Json)
    ensures var meta := ShapeMetadata(shape, name, ocpu);
      && (meta["shape_type"] == JStr("flexible") <==> PyText.Contains(name, "Flex"))
      && ("pricing_note" in meta <==> Truthy(Lookup(shape, "free_tier", JNull)))
  {
  }

  function ShapeDescription(shape: map<string, Json>, name: string): string {
    "Oracle Cloud " + name + (if Truthy(Lookup(shape, "free_tier", JNull)) then " (Free Tier Eligible)" else "")
  }

  /** The keys a shape adds when it has storage or a GPU; the base record
      never has them, so they can be joined in either order. */
  function ShapeExtras(shape: map<string, Json>): map<string, Json> {
    var withStorage := if "storage" in shape then map["diskType" := JStr("NVMe SSD"), "storage_description" := shape["storage"]] else map[];
    if "gpu" in shape then withStorage["gpu_description" := shape["gpu"]] else withStorage
  }

  /** The record of a shape (the keys read most often come last in the
      display; order is immaterial in a map). */
  function ShapeFields(shape: map<string, Json>, name: string, vcpu: Json, price: Json, monthly: Json, now: string): map<string, Json>
    requires "ocpu" in shape && "memory" in shape
  {
    ShapeExtras(shape) + map[
      "provider" := JStr("oci"),
      "type" := JStr("cloud-server"),
      "instanceType" := JStr(name),
      "memoryGiB" := shape["memory"],
      "architecture" := Lookup(shape, "arch", JStr("x86")),
      "regions" := JArr(RegionCodes()),
      "locationDetails" := JArr(RegionDetails()),
      "source" := JStr("oci_shapes"),
      "lastUpdated" := JStr(now),
      "description" := JStr(ShapeDescription(shape, name)),
      "oci_metadata" := JObj(ShapeMetadata(shape, name, shape["ocpu"])),
      "vCPU" := vcpu,
      "priceUSD_hourly" := price,
      "priceUSD_monthly" := monthly]
  }

  /** `_create_instance_from_shape`: `None` when the shape lacks `name`,
      `ocpu` or `memory`, or its figures cannot be multiplied. */
  function CreateInstanceFromShape(shape: map<string, Json>, now: string): Option<Json> {
    if "name" !in shape || "ocpu" !in shape || "memory" !in shape || !shape["name"].JStr? then None
    else
      var price := ShapePrice(shape, shape["ocpu"], shape["memory"]);
      var vcpu := ShapeVcpu(Lookup(shape, "arch", JStr("x86")), shape["ocpu"]);
      if price.Err? || vcpu.Err? then None
      else
        var monthly := Mul(price.value, JReal(HoursPerMonth));
        if monthly.Err? then None
        else Some(JObj(ShapeFields(shape, shape["name"].s, vcpu.value, price.value, monthly.value, now)))
  }

  /** A shape without its name, OCPU count or memory gives no record. */
  lemma ShapeNeedsKeys(shape: map<string, Json>, now: string)
    ensures CreateInstanceFromShape(shape, now).Some? ==> "name" in shape && "ocpu" in shape && "memory" in shape
  {
  }

  /** A shape's record: the price rule, the monthly price at 730.44 hours,
      and one vCPU per ARM OCPU or two per other OCPU. */
  lemma ShapePricing(shape: map<string, Json>, now: string)
    requires CreateInstanceFromShape(shape, now).Some?
    ensures var r := CreateInstanceFromShape(shape, now).value.fields;
      var ocpu, memory := shape["ocpu"], shape["memory"];
      && IsNumber(r["priceUSD_hourly"]) && IsNumber(r["priceUSD_monthly"])
      && ("price_hourly" in shape ==> r["priceUSD_hourly"] == shape["price_hourly"])
      && ("price_hourly" !in shape && "price_per_ocpu" in shape && "price_per_gb" in shape ==>
            IsNumber(memory) && IsNumber(shape["price_per_ocpu"]) && IsNumber(shape["price_per_gb"]) &&
            NumValue(r["priceUSD_hourly"]) == NumValue(ocpu) * NumValue(shape["price_per_ocpu"]) + NumValue(memory) * NumValue(shape["price_per_gb"]))
      && ("price_hourly" !in shape && !("price_per_ocpu" in shape && "price_per_gb" in shape) ==>
            r["priceUSD_hourly"] == JReal(DefaultShapePrice))
      && NumValue(r["priceUSD_monthly"]) == NumValue(r["priceUSD_hourly"]) * HoursPerMonth
      && (Lookup(shape, "arch", JStr("x86")) == JStr("ARM") ==> r["vCPU"] == ocpu)
      && (Lookup(shape, "arch", JStr("x86")) != JStr("ARM") ==>
            IsNumber(ocpu) && IsNumber(r["vCPU"]) && NumValue(r["vCPU"]) == 2.0 * NumValue(ocpu))
  {
    var name := shape["name"].s;
    var price := ShapePrice(shape, shape["ocpu"], shape["memory"]).value;
    var vcpu := ShapeVcpu(Lookup(shape, "arch", JStr("x86")), shape["ocpu"]).value;
    var monthly := Mul(price, JReal(HoursPerMonth)).value;
    ShapeFieldsCarry(shape, name, vcpu, price, monthly, now);
  }

  lemma ShapeFieldsCarry(shape: map<string, Json>, name: string, vcpu: Json, price: Json, monthly: Json, now: string)
    requires "ocpu" in shape && "memory" in shape
    ensures var r := ShapeFields(shape, name, vcpu, price, monthly, now);
      r["priceUSD_hourly"] == price && r["priceUSD_monthly"] == monthly && r["vCPU"] == vcpu
  {
  }

  lemma ShapeFieldsLabels(shape: map<string, Json>, name: string, vcpu: Json, price: Json, monthly: Json, now: string)
    requires "ocpu" in shape && "memory" in shape
    ensures var r := ShapeFields(shape, name, vcpu, price, monthly, now);
      r["oci_metadata"] == JObj(ShapeMetadata(shape, name, shape["ocpu"])) && r["description"] == JStr(ShapeDescription(shape, name))
  {
  }

  /** The shape type is `flexible` exactly for names containing `Flex`, and
      free-tier shapes say so in their description and pricing note. */
  lemma ShapeLabels(shape: map<string, Json>, now: string)
    requires CreateInstanceFromShape(shape, now).Some?
    ensures var r := CreateInstanceFromShape(shape, now).value.fields;
      var name := shape["name"].s;
      var meta := ShapeMetadata(shape, name, shape["ocpu"]);
      && r["oci_metadata"] == JObj(meta)
      && (meta["shape_type"] == JStr("flexible") <==> PyText.Contains(name, "Flex"))
      && (Truthy(Lookup(shape, "free_tier", JNull)) ==>
            r["description"] == JStr("Oracle Cloud " + name + " (Free Tier Eligible)") && "pricing_note" in meta)
      && (!Truthy(Lookup(shape, "free_tier", JNull)) ==>
            r["description"] == JStr("Oracle Cloud " + name) && "pricing_note" !in meta)
  {
    var name := shape["name"].s;
    var price := ShapePrice(shape, shape["ocpu"], shape["memory"]).value;
    var vcpu := ShapeVcpu(Lookup(shape, "arch", JStr("x86")), shape["ocpu"]).value;
    var monthly := Mul(price, JReal(HoursPerMonth)).value;
    ShapeFieldsLabels(shape, name, vcpu, price, monthly, now);
    MetadataLabels(shape, name, shape["ocpu"]);
    assert "Oracle Cloud " + name + "" == "Oracle Cloud " + name;
  }

  /** `_fetch_compute_shapes`: every shape's result is appended, a failed
      one as `None`. */
  function ComputeShapes(shapes: seq<map<string, Json>>, now: string): seq<Json> {
    seq(|shapes|, i requires 0 <= i < |shapes| =>
      if CreateInstanceFromShape(shapes[i], now).Some? then CreateInstanceFromShape(shapes[i], now).value else JNull)
  }

  /** `_get_fallback_instances`: failed shapes are dropped. */
  function FallbackInstances(shapes: seq<map<string, Json>>, now: string): seq<Json> {
    SeqFilter.FilterMap(shapes, (s: map<string, Json>) => CreateInstanceFromShape(s, now))
  }

  method FetchComputeShapes(shapes: seq<map<string, Json>>, now: string) returns (instances: seq<Json>)
    ensures instances == ComputeShapes(shapes, now)
  {
    instances := [];
    for i := 0 to |shapes|
      invariant instances == ComputeShapes(shapes[..i], now)
    {
      var instance := CreateInstanceFromShape(shapes[i], now);
      instances := instances + [if instance.Some? then instance.value else JNull];
    }
    assert shapes[..|shapes|] == shapes;
  }

  method GetFallbackInstances(shapes: seq<map<string, Json>>, now: string) returns (instances: seq<Json>)
    ensures instances == FallbackInstances(shapes, now)
  {
    instances := [];
    for i := 0 to |shapes|
      invariant instances == FallbackInstances(shapes[..i], now)
    {
      assert shapes[..i + 1][..i] == shapes[..i];
      var instance := CreateInstanceFromShape(shapes[i], now);
      if instance.Some? {
        instances := instances + [instance.value];
      }
    }
    assert shapes[..|shapes|] == shapes;
  }

  /** The shapes path keeps one entry per shape, `None` included; the
      fallback path keeps only records. */
  lemma ShapePaths(shapes: seq<map<string, Json>>, now: string)
    ensures |ComputeShapes(shapes, now)| == |shapes|
    ensures forall i :: 0 <= i < |shapes| && CreateInstanceFromShape(shapes[i], now).None? ==> ComputeShapes(shapes, now)[i] == JNull
    ensures forall x :: x in FallbackInstances(shapes, now) ==> x.JObj?
    ensures forall i :: 0 <= i < |shapes| && CreateInstanceFromShape(shapes[i], now).Some? ==>
      CreateInstanceFromShape(shapes[i], now).value in FallbackInstances(shapes, now)
  {
    var f := (s: map<string, Json>) => CreateInstanceFromShape(s, now);
    SeqFilter.FilterMapSound(shapes, f);
    SeqFilter.FilterMapComplete(shapes, f);
    forall x | x in FallbackInstances(shapes, now) ensures x.JObj? {
      var i :| 0 <= i < |shapes| && f(shapes[i]) == Some(x);
    }
    forall i | 0 <= i < |shapes| && CreateInstanceFromShape(shapes[i], now).Some?
      ensures CreateInstanceFromShape(shapes[i], now).value in FallbackInstances(shapes, now)
    {
      assert f(shapes[i]).Some?;
    }
  }

  // ---------------------------------------------------------------------
  // The fallback chain

  /** `collect_all_oci_data`: the pricing API's records when there are
      any, else the records built from the known shapes, else the
      fallback records. */
  function CollectAllOciData(status: int, body: Option<Json>, knownShapes: seq<map<string, Json>>,
                             fallbackShapes: seq<map<string, Json>>, now: string, asWritten: bool): seq<Json> {
    var fromApi := PricingApiInstances(status, body, now, asWritten);
    if fromApi != [] then fromApi
    else
      var fromShapes := ComputeShapes(knownShapes, now);
      if fromShapes != [] then fromShapes else FallbackInstances(fallbackShapes, now)
  }

  /** `collect_all_oci_data` step by step. The source's `except` branch is
      not modelled: the methods called inside its `try` catch their own
      exceptions (the fallback list through `_create_instance_from_shape`),
      so that branch is never taken. */
  method CollectAll(status: int, body: Option<Json>, knownShapes: seq<map<string, Json>>,
                    fallbackShapes: seq<map<string, Json>>, now: string, asWritten: bool) returns (all: seq<Json>)
    ensures all == CollectAllOciData(status, body, knownShapes, fallbackShapes, now, asWritten)
  {
    all := [];
    var fromApi := FetchFromPricingApi(status, body, now, asWritten);
    if fromApi != [] {
      all := all + fromApi;
    }
    if all == [] {
      var fromShapes := FetchComputeShapes(knownShapes, now);
      all := all + fromShapes;
    }
    if all == [] {
      var fallback := GetFallbackInstances(fallbackShapes, now);
      all := all + fallback;
    }
  }

  /** The fallback list is empty exactly when no fallback shape builds. */
  lemma FallbackEmpty(shapes: seq<map<string, Json>>, now: string)
    ensures FallbackInstances(shapes, now) == [] <==> forall s :: s in shapes ==> CreateInstanceFromShape(s, now).None?
  {
    ShapePaths(shapes, now);
    var f := (s: map<string, Json>) => CreateInstanceFromShape(s, now);
    SeqFilter.FilterMapSound(shapes, f);
    forall s | s in shapes && CreateInstanceFromShape(s, now).Some? ensures FallbackInstances(shapes, now) != [] {
      var i :| 0 <= i < |shapes| && shapes[i] == s;
    }
    if FallbackInstances(shapes, now) != [] {
      assert FallbackInstances(shapes, now)[0] in FallbackInstances(shapes, now);
    }
  }

  /** The collection is empty only when every source is: the pricing API
      gave nothing, there are no known shapes, and no fallback shape
      builds. */
  lemma CollectEmptyOnlyIfAllFail(status: int, body: Option<Json>, knownShapes: seq<map<string, Json>>,
                                  fallbackShapes: seq<map<string, Json>>, now: string, asWritten: bool)
    ensures CollectAllOciData(status, body, knownShapes, fallbackShapes, now, asWritten) == [] <==>
      PricingApiInstances(status, body, now, asWritten) == [] && knownShapes == [] &&
      forall s :: s in fallbackShapes ==> CreateInstanceFromShape(s, now).None?
  {
    FallbackEmpty(fallbackShapes, now);
    assert |ComputeShapes(knownShapes, now)| == |knownShapes|;
  }
}
