/** The two report records that flow through the enrichment pipeline. */
module Shared {
  import opened Wrappers

  /** A latitude or longitude, held as the text Python's `str()` gives the float. */
  type Coordinate = string

  /** A trust score in hundredths: 0.75 is 75. */
  type Hundredths = nat

  /** A submitted sighting: five required fields and four optional ones. */
  datatype ReportDetails = ReportDetails(
    sourceAccountId: string,
    timestamp: string,
    latitude: Coordinate,
    longitude: Coordinate,
    pictureUrl: string,
    vesselRegistry: Option<string>,
    description: Option<string>,
    activityType: Option<string>,
    vesselHeading: Option<string>)

  /** A report with every field of `base` plus the enrichment fields. The
      `enrichedDescription` field is assigned by the workflow although the record
      declares no such field; it is added here as an optional field. */
  datatype EnrichedReportDetails = EnrichedReportDetails(
    base: ReportDetails,
    reportNumber: Option<string>,
    trustScore: Option<Hundredths>,
    aisNeighbours: Option<seq<string>>,
    visibility: Option<int>,
    enrichedDescription: Option<string>)

  /** The keyword names of the required fields, in declaration order. */
  const RequiredFields: seq<string> :=
    ["source_account_id", "timestamp", "latitude", "longitude", "picture_url"]

  /** The names in `names`, in order, that `fields` does not supply. */
  function MissingFrom(names: seq<string>, fields: map<string, string>): (r: seq<string>)
    ensures forall x :: x in r <==> x in names && x !in fields
  {
    if |names| == 0 then []
    else (if names[0] in fields then [] else [names[0]]) + MissingFrom(names[1..], fields)
  }

  function Lookup(fields: map<string, string>, key: string): Option<string>
  {
    if key in fields then Some(fields[key]) else None
  }

  /** Building a report from keyword arguments: the error lists every required
      field that is missing; an optional field not supplied is None. */
  function MakeReportDetails(fields: map<string, string>): (r: Result<ReportDetails, seq<string>>)
    ensures r.Err? ==> r.error != [] && forall x :: x in r.error <==> x in RequiredFields && x !in fields
  {
    var missing := MissingFrom(RequiredFields, fields);
    if missing != [] then Err(missing)
    else
      assert "source_account_id" in RequiredFields && "timestamp" in RequiredFields;
      assert "latitude" in RequiredFields && "longitude" in RequiredFields && "picture_url" in RequiredFields;
      Ok(ReportDetails(
        fields["source_account_id"], fields["timestamp"], fields["latitude"], fields["longitude"],
        fields["picture_url"], Lookup(fields, "vessel_registry"), Lookup(fields, "description"),
        Lookup(fields, "activity_type"), Lookup(fields, "vessel_heading")))
  }

  /** `m` with `key` bound to the value of `v` when `v` is set. */
  function WithOptional(m: map<string, string>, key: string, v: Option<string>): (r: map<string, string>)
    ensures key !in m ==> Lookup(r, key) == v
    ensures forall k :: k != key ==> Lookup(r, k) == Lookup(m, k)
  {
    if v.Some? then m[key := v.value] else m
  }

  /** The keyword arguments that describe `r`: every required field, and an
      optional field only when it is set. */
  function ReportFields(r: ReportDetails): map<string, string>
  {
    var m1 := WithOptional(map[], "vessel_registry", r.vesselRegistry);
    var m2 := WithOptional(m1, "description", r.description);
    var m3 := WithOptional(m2, "activity_type", r.activityType);
    var optional := WithOptional(m3, "vessel_heading", r.vesselHeading);
    optional + map["source_account_id" := r.sourceAccountId, "timestamp" := r.timestamp,
        "latitude" := r.latitude, "longitude" := r.longitude, "picture_url" := r.pictureUrl]
  }

  /** A report is built exactly when all five required fields are supplied. */
  lemma MakeSucceedsIffRequiredPresent(fields: map<string, string>)
    ensures MakeReportDetails(fields).Ok? <==>
      "source_account_id" in fields && "timestamp" in fields && "latitude" in fields
      && "longitude" in fields && "picture_url" in fields
  {
    var missing := MissingFrom(RequiredFields, fields);
    if missing == [] {
      assert "source_account_id" in RequiredFields && "timestamp" in RequiredFields;
      assert "latitude" in RequiredFields && "longitude" in RequiredFields && "picture_url" in RequiredFields;
    } else {
      var x := missing[0];
      assert x in missing;
    }
  }

  /** A built report holds the supplied value of every field; an optional
      field left out is None. */
  lemma MakeDefaultsOptionalFields(fields: map<string, string>)
    requires MakeReportDetails(fields).Ok?
    ensures var r := MakeReportDetails(fields).value;
      && Lookup(fields, "source_account_id") == Some(r.sourceAccountId)
      && Lookup(fields, "timestamp") == Some(r.timestamp)
      && Lookup(fields, "latitude") == Some(r.latitude)
      && Lookup(fields, "longitude") == Some(r.longitude)
      && Lookup(fields, "picture_url") == Some(r.pictureUrl)
      && r.vesselRegistry == Lookup(fields, "vessel_registry")
      && r.description == Lookup(fields, "description")
      && r.activityType == Lookup(fields, "activity_type")
      && r.vesselHeading == Lookup(fields, "vessel_heading")
  {
    MakeSucceedsIffRequiredPresent(fields);
  }

  /** The keyword arguments of a report supply its account and timestamp. */
  lemma ReportFieldsIdentity(r: ReportDetails)
    ensures Lookup(ReportFields(r), "source_account_id") == Some(r.sourceAccountId)
    ensures Lookup(ReportFields(r), "timestamp") == Some(r.timestamp)
  {
  }

  /** The keyword arguments of a report supply its position and picture. */
  lemma ReportFieldsPosition(r: ReportDetails)
    ensures Lookup(ReportFields(r), "latitude") == Some(r.latitude)
    ensures Lookup(ReportFields(r), "longitude") == Some(r.longitude)
    ensures Lookup(ReportFields(r), "picture_url") == Some(r.pictureUrl)
  {
  }

  /** The keyword arguments of a report supply an optional field exactly when it is set. */
  lemma ReportFieldsOptional(r: ReportDetails)
    ensures var f := ReportFields(r);
      && Lookup(f, "vessel_registry") == r.vesselRegistry
      && Lookup(f, "description") == r.description
      && Lookup(f, "activity_type") == r.activityType
      && Lookup(f, "vessel_heading") == r.vesselHeading
  {
  }

  /** Rebuilding a report from its own keyword arguments gives it back. */
  lemma MakeReportFieldsRoundTrip(r: ReportDetails)
    ensures MakeReportDetails(ReportFields(r)) == Ok(r)
  {
    var f := ReportFields(r);
    ReportFieldsIdentity(r);
    ReportFieldsPosition(r);
    ReportFieldsOptional(r);
    MakeSucceedsIffRequiredPresent(f);
    MakeDefaultsOptionalFields(f);
  }

  /** `EnrichedReportDetails(**ship.__dict__)`: the report's fields, with the
      enrichment fields at their declared defaults. */
  function FromReport(r: ReportDetails): EnrichedReportDetails
  {
    EnrichedReportDetails(r, None, None, None, Some(1), None)
  }

  /** A fresh enriched report keeps the report and has no report number, no
      trust score and no neighbours, while visibility starts at 1, not None. */
  lemma FromReportDefaults(r: ReportDetails)
    ensures FromReport(r).base == r
    ensures FromReport(r).reportNumber == None && FromReport(r).trustScore == None
    ensures FromReport(r).aisNeighbours == None && FromReport(r).enrichedDescription == None
    ensures FromReport(r).visibility == Some(1)
  {
  }
}
