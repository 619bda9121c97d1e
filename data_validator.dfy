/** The record contract every collector feeds: required keys, the provider
    and type allow-lists, sign checks on the numeric fields and a non-blank
    instance type (`scripts/utils/data_validator.py`). */
module DataValidator {

  import opened Wrappers
  import opened PyJson
  import PyText

  const RequiredFields: seq<string> :=
    ["provider", "type", "instanceType", "priceUSD_hourly", "lastUpdated"]

  const ValidProviders: seq<string> := ["aws", "azure", "gcp", "hetzner", "oci", "ovh"]

  const ValidTypes: seq<string> :=
    ["cloud-server", "cloud-loadbalancer", "cloud-volume", "cloud-network",
     "cloud-floating-ip", "cloud-snapshot", "cloud-certificate", "dedicated-server",
     "dedicated-auction", "dedicated-storage", "dedicated-colocation"]

  /** Why a record is rejected: the check that returns `False` first. */
  datatype Violation =
    | NotARecord
    | MissingField(field: string)
    | InvalidProvider
    | InvalidType
    | InvalidVcpu
    | InvalidMemory
    | InvalidPrice
    | NonStringInstanceType
    | BlankInstanceType

  /** The first required field, in list order, that the record lacks. */
  function FirstMissing(fields: map<string, Json>, required: seq<string>): Option<string> {
    if required == [] then None
    else if required[0] !in fields then Some(required[0])
    else FirstMissing(fields, required[1..])
  }

  /** `FirstMissing` finds nothing exactly when every required field is
      present, and otherwise names the earliest absent one. */
  lemma {:induction false} FirstMissingSpec(fields: map<string, Json>, required: seq<string>)
    ensures FirstMissing(fields, required).None? <==> forall f :: f in required ==> f in fields
    ensures FirstMissing(fields, required).Some? ==>
      exists k :: 0 <= k < |required| && required[k] == FirstMissing(fields, required).value &&
        required[k] !in fields && forall j :: 0 <= j < k ==> required[j] in fields
  {
    if required != [] && required[0] in fields {
      var rest := required[1..];
      FirstMissingSpec(fields, rest);
      if FirstMissing(fields, rest).Some? {
        var k :| 0 <= k < |rest| && rest[k] == FirstMissing(fields, rest).value &&
                 rest[k] !in fields && forall j :: 0 <= j < k ==> rest[j] in fields;
        assert required[k + 1] == rest[k];
        forall j | 0 <= j < k + 1
          ensures required[j] in fields
        {
          if j > 0 { assert required[j] == rest[j - 1]; }
        }
      }
      assert forall f :: f in required ==> f == required[0] || f in rest;
    }
  }

  /** `value in allowed` for a list of strings: a non-string is never equal. */
  predicate OneOf(value: Json, allowed: seq<string>) {
    value.JStr? && value.s in allowed
  }

  /** An optional numeric field: absent or null, or a number above zero. */
  predicate PositiveIfPresent(fields: map<string, Json>, key: string) {
    key !in fields || fields[key] == JNull ||
    (IsNumber(fields[key]) && NumValue(fields[key]) > 0.0)
  }

  predicate NonNegativeNumber(j: Json) {
    IsNumber(j) && NumValue(j) >= 0.0
  }

  /** The checks of `validate_instance_data`, in the order it makes them. A
      record that is not a dict, or whose `instanceType` has no `strip`,
      makes the source raise inside its `try`, which it reports as invalid. */
  function FirstViolation(record: Json): Option<Violation> {
    if !record.JObj? then Some(NotARecord)
    else
      var m := record.fields;
      match FirstMissing(m, RequiredFields)
      case Some(f) => Some(MissingField(f))
      case None =>
        FirstMissingSpec(m, RequiredFields);
        if !OneOf(m["provider"], ValidProviders) then Some(InvalidProvider)
        else if !OneOf(m["type"], ValidTypes) then Some(InvalidType)
        else if !PositiveIfPresent(m, "vCPU") then Some(InvalidVcpu)
        else if !PositiveIfPresent(m, "memoryGiB") then Some(InvalidMemory)
        else if !NonNegativeNumber(m["priceUSD_hourly"]) then Some(InvalidPrice)
        else if !m["instanceType"].JStr? then Some(NonStringInstanceType)
        else if PyText.AllSpace(m["instanceType"].s) then Some(BlankInstanceType)
        else None
  }

  /** The record contract stated as one conjunction, independent of the
      order in which the source checks it. */
  predicate WellFormed(record: Json) {
    && record.JObj?
    && (forall f :: f in RequiredFields ==> f in record.fields)
    && OneOf(record.fields["provider"], ValidProviders)
    && OneOf(record.fields["type"], ValidTypes)
    && PositiveIfPresent(record.fields, "vCPU")
    && PositiveIfPresent(record.fields, "memoryGiB")
    && NonNegativeNumber(record.fields["priceUSD_hourly"])
    && record.fields["instanceType"].JStr?
    && !PyText.AllSpace(record.fields["instanceType"].s)
  }

  /** `validate_instance_data`: `True` when no check fails. */
  predicate ValidateInstanceData(record: Json) {
    FirstViolation(record).None?
  }

  /** The validator never raises and accepts exactly the well-formed records. */
  lemma ValidateIffWellFormed(record: Json)
    ensures ValidateInstanceData(record) <==> WellFormed(record)
  {
    if record.JObj? {
      FirstMissingSpec(record.fields, RequiredFields);
    }
  }

  lemma MissingFieldRejected(record: Json, field: string)
    requires record.JObj? && field in RequiredFields && field !in record.fields
    ensures !ValidateInstanceData(record)
    ensures FirstViolation(record).Some? && FirstViolation(record).value.MissingField?
  {
    FirstMissingSpec(record.fields, RequiredFields);
  }

  lemma UnknownProviderOrTypeRejected(record: Json)
    requires record.JObj? && forall f :: f in RequiredFields ==> f in record.fields
    requires !OneOf(record.fields["provider"], ValidProviders) || !OneOf(record.fields["type"], ValidTypes)
    ensures !ValidateInstanceData(record)
  {
  }

  /** Removing an absent-or-null `vCPU` or `memoryGiB` never changes the
      verdict, whatever the record's type. */
  lemma NullSpecsIgnored(m: map<string, Json>, key: string)
    requires key == "vCPU" || key == "memoryGiB"
    requires key in m && m[key] == JNull
    ensures ValidateInstanceData(JObj(m)) == ValidateInstanceData(JObj(m - {key}))
  {
    var m' := m - {key};
    FirstMissingAgree(m, m', RequiredFields);
    FirstMissingSpec(m, RequiredFields);
    if FirstMissing(m, RequiredFields).None? {
      assert RequiredFields[0] in m && RequiredFields[1] in m && RequiredFields[2] in m && RequiredFields[3] in m;
      assert m'["provider"] == m["provider"] && m'["type"] == m["type"];
      assert m'["priceUSD_hourly"] == m["priceUSD_hourly"] && m'["instanceType"] == m["instanceType"];
      assert PositiveIfPresent(m, "vCPU") == PositiveIfPresent(m', "vCPU");
      assert PositiveIfPresent(m, "memoryGiB") == PositiveIfPresent(m', "memoryGiB");
    }
  }

  /** Two dicts with the same required keys agree on the first missing one. */
  lemma {:induction false} FirstMissingAgree(m: map<string, Json>, m': map<string, Json>, required: seq<string>)
    requires forall f :: f in required ==> (f in m <==> f in m')
    ensures FirstMissing(m, required) == FirstMissing(m', required)
  {
    if required != [] {
      FirstMissingAgree(m, m', required[1..]);
    }
  }

  /** A present, non-null `vCPU` or `memoryGiB` of zero makes the record invalid. */
  lemma ZeroSpecRejected(record: Json, key: string)
    requires key == "vCPU" || key == "memoryGiB"
    requires record.JObj? && key in record.fields
    requires IsNumber(record.fields[key]) && NumValue(record.fields[key]) <= 0.0
    ensures !ValidateInstanceData(record)
  {
  }

  /** A free record passes: a price of exactly zero is allowed. */
  lemma ZeroPriceAccepted(m: map<string, Json>)
    requires WellFormed(JObj(m))
    ensures ValidateInstanceData(JObj(m["priceUSD_hourly" := JInt(0)]))
  {
    var m' := m["priceUSD_hourly" := JInt(0)];
    assert forall f :: f in RequiredFields ==> f in m';
    ValidateIffWellFormed(JObj(m'));
  }

  /** A record whose `instanceType` is not a string is rejected rather than
      raising, as is one whose `instanceType` is blank. */
  lemma BadInstanceTypeRejected(record: Json)
    requires record.JObj? && "instanceType" in record.fields
    requires !record.fields["instanceType"].JStr? || PyText.AllSpace(record.fields["instanceType"].s)
    ensures !ValidateInstanceData(record)
  {
  }

  /** The error message `validate_dataset` reports for one rejected record:
      its position and its `instanceType` (or `unknown`). */
  datatype Rejection = InvalidData(index: nat, instanceType: Json)

  /** The records that pass, in input order. */
  function Accepted(records: seq<Json>): seq<Json> {
    if records == [] then []
    else
      var last := records[|records| - 1];
      Accepted(records[..|records| - 1]) + (if ValidateInstanceData(last) then [last] else [])
  }

  /** One rejection per record that fails, in input order. */
  function Rejections(records: seq<Json>): seq<Rejection> {
    if records == [] then []
    else
      var i := |records| - 1;
      var last := records[i];
      Rejections(records[..i]) +
        (if ValidateInstanceData(last) then []
         else [InvalidData(i, if last.JObj? && "instanceType" in last.fields
                              then last.fields["instanceType"] else JStr("unknown"))])
  }

  predicate AllRecords(records: seq<Json>) {
    forall i :: 0 <= i < |records| ==> records[i].JObj?
  }

  /** `validate_dataset`. A list element that is not a dict fails validation
      and then has no `.get` for the error message, so the call raises. */
  method ValidateDataset(records: seq<Json>) returns (r: Result<(seq<Json>, seq<Rejection>)>)
    ensures r.Ok? <==> AllRecords(records)
    ensures r.Err? ==> r.error == AttributeError
    ensures r.Ok? ==> r.value == (Accepted(records), Rejections(records))
  {
    var valid: seq<Json> := [];
    var errors: seq<Rejection> := [];
    var i := 0;
    while i < |records|
      invariant 0 <= i <= |records|
      invariant AllRecords(records[..i])
      invariant valid == Accepted(records[..i])
      invariant errors == Rejections(records[..i])
    {
      var record := records[i];
      var prefix := records[..i + 1];
      assert prefix[..i] == records[..i] && prefix[i] == record;
      if ValidateInstanceData(record) {
        valid := valid + [record];
      } else {
        var name := Get(record, "instanceType", JStr("unknown"));
        if name.Err? {
          assert !AllRecords(records) by {
            assert !records[i].JObj?;
          }
          return Err(name.error);
        }
        errors := errors + [InvalidData(i, name.value)];
      }
      assert AllRecords(prefix) by {
        forall k | 0 <= k < |prefix|
          ensures prefix[k].JObj?
        {
          if k < i {
            assert prefix[k] == records[..i][k];
          }
        }
      }
      i := i + 1;
    }
    assert records[..i] == records;
    return Ok((valid, errors));
  }

  /** Every record lands in exactly one of the two outputs. */
  lemma {:induction false} PartitionSizes(records: seq<Json>)
    ensures |Accepted(records)| + |Rejections(records)| == |records|
  {
    if records != [] {
      PartitionSizes(records[..|records| - 1]);
    }
  }

  /** The accepted list holds exactly the valid inputs, in order: it is the
      input with the invalid records removed. */
  lemma {:induction false} AcceptedIsFilter(records: seq<Json>)
    ensures forall x :: x in Accepted(records) ==> x in records && ValidateInstanceData(x)
    ensures forall i :: 0 <= i < |records| && ValidateInstanceData(records[i]) ==> records[i] in Accepted(records)
  {
    if records != [] {
      var init := records[..|records| - 1];
      AcceptedIsFilter(init);
      forall i | 0 <= i < |records| - 1
        ensures records[i] == init[i]
      {
      }
    }
  }

  /** The rejections name exactly the invalid positions, each once and in
      increasing order. */
  lemma {:induction false} RejectionsAreInvalidPositions(records: seq<Json>)
    ensures forall k :: 0 <= k < |Rejections(records)| ==>
      Rejections(records)[k].index < |records| &&
      !ValidateInstanceData(records[Rejections(records)[k].index])
    ensures forall k, l :: 0 <= k < l < |Rejections(records)| ==>
      Rejections(records)[k].index < Rejections(records)[l].index
    ensures forall i :: 0 <= i < |records| && !ValidateInstanceData(records[i]) ==>
      exists k :: 0 <= k < |Rejections(records)| && Rejections(records)[k].index == i
  {
    if records != [] {
      var n := |records| - 1;
      var init := records[..n];
      RejectionsAreInvalidPositions(init);
      var rs := Rejections(records);
      var ri := Rejections(init);
      assert rs[..|ri|] == ri;
      forall i | 0 <= i < |records| && !ValidateInstanceData(records[i])
        ensures exists k :: 0 <= k < |rs| && rs[k].index == i
      {
        if i < n {
          assert records[i] == init[i];
          var k :| 0 <= k < |ri| && ri[k].index == i;
          assert rs[k] == ri[k];
        } else {
          assert rs[|ri|].index == i;
        }
      }
    }
  }
}
