/** The workflow's activities: the three stub enrichment steps, each taking the
    random draw it would make as a parameter, and the Prometheus line renderer. */
module Activities {
  import opened Wrappers
  import opened Text
  import opened Shared

  // ---------------------------------------------------------------------------
  // Stub enrichment steps

  /** "AIS-" followed by the decimal digits of a five-digit draw. */
  function FormatReportNumber(draw: int): (r: string)
    requires 10000 <= draw <= 99999
    ensures |r| == 9 && StartsWith(r, "AIS-")
    ensures AllDigits(r[4..]) && DigitsValue(r[4..]) == draw
  {
    NatToStringLength(draw, 5);
    DigitsValueOfNatToString(draw);
    assert ("AIS-" + NatToString(draw))[4..] == NatToString(draw);
    "AIS-" + NatToString(draw)
  }

  /** The report number for `randint(10000, 99999)` returning `draw`: nine
      characters, "AIS-" and then five digits that spell the draw. */
  function AssignReportNumber(report: ReportDetails, draw: int): (r: string)
    requires 10000 <= draw <= 99999
    ensures |r| == 9 && StartsWith(r, "AIS-")
    ensures AllDigits(r[4..]) && DigitsValue(r[4..]) == draw
  {
    FormatReportNumber(draw)
  }

  /** The visibility for `randint(5, 10)` returning `draw`: the draw itself. */
  function CalculateVisibility(report: EnrichedReportDetails, draw: int): (r: int)
    requires 5 <= draw <= 10
    ensures 5 <= r <= 10 && r == draw
  {
    draw
  }

  /** `round(x)` on an exact value: to the nearest integer, ties to the even one. */
  function RoundHalfEven(x: real): (r: int)
    ensures x - 0.5 <= r as real <= x + 0.5
    ensures r as real - x == 0.5 ==> r % 2 == 0
    ensures x - r as real == 0.5 ==> r % 2 == 0
  {
    var n := x.Floor;
    var frac := x - n as real;
    if frac > 0.5 then n + 1
    else if frac < 0.5 then n
    else if n % 2 == 0 then n
    else n + 1
  }

  /** `round(random.uniform(0.5, 1.0), 2)` for a uniform draw `draw`, in
      hundredths: between 50 and 100, within half a hundredth of the draw. */
  function CalculateTrustScore(sourceAccountId: string, draw: real): (r: Hundredths)
    requires 0.5 <= draw <= 1.0
    ensures 50 <= r <= 100
    ensures -0.5 <= r as real - 100.0 * draw <= 0.5
  {
    RoundHalfEven(100.0 * draw)
  }

  /** With the draws the unit tests fix: 12345, 8 and 0.75. */
  lemma StubStepExamples(report: ReportDetails)
    ensures AssignReportNumber(report, 12345) == "AIS-12345"
    ensures CalculateVisibility(FromReport(report), 8) == 8
    ensures CalculateTrustScore("acct", 0.75) == 75
    ensures ScoreText(75) == "0.75" && ScoreText(80) == "0.8" && ScoreText(100) == "1.0"
  {
  }

  // ---------------------------------------------------------------------------
  // Rendering one report as Prometheus sample lines

  /** A value of a dict-shaped report as the renderer sees it. */
  datatype Value =
    | Text(s: string)
    | Score(h: Hundredths)
    | Integer(i: int)
    | TextList(items: seq<string>)
    | Null

  /** Python's repr of the float `h / 100` for a score rounded to hundredths:
      at least one decimal, trailing zeros dropped (75 is "0.75", 80 is "0.8",
      100 is "1.0"). */
  function ScoreText(h: Hundredths): string
  {
    NatToString(h / 100) + "." + FractionDigits(h % 100)
  }

  /** The decimals of a score: one digit when the second would be zero, and
      "0" for none. */
  function FractionDigits(frac: nat): string
    requires frac < 100
  {
    if frac == 0 then "0"
    else if frac % 10 == 0 then [DigitChar(frac / 10)]
    else [DigitChar(frac / 10), DigitChar(frac % 10)]
  }

  /** The hundredths a score text of the form above denotes. */
  function ParseScoreText(s: string): Option<Hundredths>
  {
    if '.' !in s then None
    else
      var i := FirstIndex(s, '.');
      ParseParts(s[..i], s[i + 1..])
  }

  /** The hundredths denoted by the digits before and after the dot. */
  function ParseParts(whole: string, frac: string): Option<Hundredths>
  {
    if !AllDigits(whole) || !AllDigits(frac) || |frac| < 1 || |frac| > 2 then None
    else Some(DigitsValue(whole) * 100 + FractionValue(frac))
  }

  /** One decimal counts tens of hundredths, two count hundredths. */
  function FractionValue(frac: string): nat
    requires AllDigits(frac) && 1 <= |frac| <= 2
  {
    if |frac| == 1 then DigitValue(frac[0]) * 10 else DigitsValue(frac)
  }

  /** In digits, a dot and a tail, the first dot is the one after the digits. */
  lemma FirstDotAfterDigits(w: string, tail: string)
    requires AllDigits(w)
    ensures var s := w + "." + tail;
      && '.' in s && FirstIndex(s, '.') == |w| && s[..|w|] == w && s[|w| + 1..] == tail
  {
    var s := w + "." + tail;
    assert s[|w|] == '.';
    assert forall k :: 0 <= k < |w| ==> s[k] == w[k] && IsDigit(s[k]);
    var i := FirstIndex(s, '.');
    assert s[..i + 1][i] == '.';
  }

  /** Digits, a dot and a tail parse as the digits before the dot and the tail. */
  lemma ParseWholeAndFraction(w: string, tail: string)
    requires AllDigits(w)
    ensures ParseScoreText(w + "." + tail) == ParseParts(w, tail)
  {
    var s := w + "." + tail;
    FirstDotAfterDigits(w, tail);
    var i := FirstIndex(s, '.');
    assert s[..i] == w && s[i + 1..] == tail;
  }

  /** Rendering a score loses nothing: it parses back to the same hundredths. */
  lemma {:induction false} ScoreTextRoundTrip(h: Hundredths)
    ensures ParseScoreText(ScoreText(h)) == Some(h)
  {
    var w := NatToString(h / 100);
    var tail := FractionDigits(h % 100);
    DigitsValueOfNatToString(h / 100);
    ParseWholeAndFraction(w, tail);
    FractionRoundTrip(h % 100);
    assert ParseParts(w, tail) == Some(DigitsValue(w) * 100 + FractionValue(tail));
    assert h == (h / 100) * 100 + h % 100;
  }

  /** The decimals written for a fraction are one or two digits that denote it. */
  lemma FractionRoundTrip(frac: nat)
    requires frac < 100
    ensures var t := FractionDigits(frac);
      && AllDigits(t) && 1 <= |t| <= 2 && FractionValue(t) == frac
  {
    if frac != 0 && frac % 10 != 0 {
      var t := FractionDigits(frac);
      assert t[..1] == [DigitChar(frac / 10)];
      assert t[..1][..0] == [];
      assert DigitsValue(t[..1]) == frac / 10;
      assert DigitsValue(t) == (frac / 10) * 10 + frac % 10;
    }
  }

  /** How the f-strings render a value: `str()` of the value. */
  function Render(v: Value): string
  {
    match v
    case Text(s) => s
    case Score(h) => ScoreText(h)
    case Integer(i) => IntToString(i)
    case TextList(items) => "[" + Join(QuoteAll(items), ", ") + "]"
    case Null => "None"
  }

  function QuoteAll(items: seq<string>): seq<string>
  {
    if |items| == 0 then [] else ["'" + items[0] + "'"] + QuoteAll(items[1..])
  }

  /** The shapes the renderer accepts: a dict (what an activity receives after
      the engine's JSON round trip), or one of the two report objects. */
  datatype ShipData =
    | Dict(entries: map<string, Value>)
    | Report(report: ReportDetails)
    | Enriched(enriched: EnrichedReportDetails)

  /** What the renderer reads from its input. */
  datatype MetricFields = MetricFields(
    sourceAccountId: string,
    latitude: string,
    longitude: string,
    reportNumber: Value,
    trustScore: Value)

  /** `dict.get(key)`: the value, or None when the key is absent. */
  function Get(m: map<string, Value>, key: string): Value
  {
    if key in m then m[key] else Null
  }

  function OptText(o: Option<string>): Value
  {
    if o.Some? then Text(o.value) else Null
  }

  function OptScore(o: Option<Hundredths>): Value
  {
    if o.Some? then Score(o.value) else Null
  }

  /** The keys the renderer indexes, rather than reading with `get`. */
  predicate HasRequiredKeys(m: map<string, Value>)
  {
    "source_account_id" in m && "latitude" in m && "longitude" in m
  }

  /** `key` is the first of the indexed keys, in the order they are read,
      that the dict lacks. */
  predicate FirstAbsentKey(m: map<string, Value>, key: string)
  {
    || (key == "source_account_id" && key !in m)
    || ("source_account_id" in m && key == "latitude" && key !in m)
    || ("source_account_id" in m && "latitude" in m && key == "longitude" && key !in m)
  }

  /** The fields the renderer reads, or the key whose absence raises KeyError.
      A plain report object has no report number or trust score attribute, so
      both read as None. */
  function ReadFields(ship: ShipData): (r: Result<MetricFields, string>)
    ensures !ship.Dict? ==> r.Ok?
    ensures ship.Dict? ==> (r.Ok? <==> HasRequiredKeys(ship.entries))
    ensures r.Err? ==> ship.Dict? && r.error !in ship.entries
    ensures r.Err? ==> FirstAbsentKey(ship.entries, r.error)
    ensures ship.Report? ==> r == Ok(MetricFields(ship.report.sourceAccountId, ship.report.latitude,
                                                  ship.report.longitude, Null, Null))
    ensures ship.Enriched? ==> var e := ship.enriched;
      r == Ok(MetricFields(e.base.sourceAccountId, e.base.latitude, e.base.longitude,
                           OptText(e.reportNumber), OptScore(e.trustScore)))
  {
    match ship
    case Dict(m) =>
      if "source_account_id" !in m then Err("source_account_id")
      else if "latitude" !in m then Err("latitude")
      else if "longitude" !in m then Err("longitude")
      else Ok(MetricFields(Render(m["source_account_id"]), Render(m["latitude"]), Render(m["longitude"]),
                           Get(m, "report_number"), Get(m, "trust_score")))
    case Report(r) =>
      Ok(MetricFields(r.sourceAccountId, r.latitude, r.longitude, Null, Null))
    case Enriched(e) =>
      Ok(MetricFields(e.base.sourceAccountId, e.base.latitude, e.base.longitude,
                      OptText(e.reportNumber), OptScore(e.trustScore)))
  }

  /** A report is final exactly when both report number and trust score are set. */
  predicate IsFinal(f: MetricFields)
  {
    f.reportNumber != Null && f.trustScore != Null
  }

  function StageOf(f: MetricFields): (stage: string)
    ensures stage == "final" <==> IsFinal(f)
    ensures stage == "initial" <==> !IsFinal(f)
  {
    if IsFinal(f) then "final" else "initial"
  }

  /** The metric name, the opening brace and the account label every line
      starts with. */
  function Opening(metric: string, acct: string): string
  {
    metric + "{source_account_id=\"" + acct + "\","
  }

  /** The latitude and longitude labels every line carries. */
  function Place(lat: string, lon: string): string
  {
    "latitude=\"" + lat + "\",longitude=\"" + lon + "\","
  }

  /** The line for a report that is not final, as its f-string writes it. */
  function InfoLine(acct: string, lat: string, lon: string, stage: string): string
  {
    Opening("ship_info", acct) + InfoLabels(lat, lon, stage)
  }

  function InfoLabels(lat: string, lon: string, stage: string): string
  {
    Place(lat, lon) + "stage=\"" + stage + "\"} 1"
  }

  /** The trust-score line of a final report, as its f-string writes it. */
  function TrustLine(acct: string, lat: string, lon: string, number: string, stage: string, score: string): string
  {
    Opening("ship_trust_score", acct) + TrustLabels(lat, lon, number, stage, score)
  }

  function TrustLabels(lat: string, lon: string, number: string, stage: string, score: string): string
  {
    Place(lat, lon) + "report_number=\"" + number + "\",stage=\"" + stage + "\",enriched=\"true\"} " + score
  }

  /** The report-number counter line of a final report, as its f-string writes it. */
  function CountLine(acct: string, lat: string, lon: string, stage: string): string
  {
    Opening("ship_report_number_total", acct) + CountLabels(lat, lon, stage)
  }

  function CountLabels(lat: string, lon: string, stage: string): string
  {
    Place(lat, lon) + "stage=\"" + stage + "\",enriched=\"true\"} 1"
  }

  /** The list of lines the renderer builds: the info line alone, or the
      trust-score line followed by the report-number counter line. */
  function MetricLines(f: MetricFields): seq<string>
  {
    var stage := StageOf(f);
    if !IsFinal(f) then [InfoLine(f.sourceAccountId, f.latitude, f.longitude, stage)]
    else [TrustLine(f.sourceAccountId, f.latitude, f.longitude, Render(f.reportNumber), stage, Render(f.trustScore)),
          CountLine(f.sourceAccountId, f.latitude, f.longitude, stage)]
  }

  /** `_convert_to_prometheus_metrics`: the lines joined by newlines, or the
      KeyError a dict without a required key raises. */
  function RenderShipMetrics(ship: ShipData): (r: Result<string, string>)
    ensures r.Ok? <==> ReadFields(ship).Ok?
    ensures !ship.Dict? ==> r.Ok?
    ensures ship.Dict? ==> (r.Ok? <==> HasRequiredKeys(ship.entries))
    ensures r.Err? ==> ship.Dict? && FirstAbsentKey(ship.entries, r.error)
  {
    match ReadFields(ship)
    case Err(key) => Err(key)
    case Ok(f) => Ok(Join(MetricLines(f), "\n"))
  }

  /** The activity `convert_to_prometheus_metrics` returns exactly what the
      helper returns. */
  function ConvertToPrometheusMetrics(ship: ShipData): (r: Result<string, string>)
    ensures r == RenderShipMetrics(ship)
  {
    RenderShipMetrics(ship)
  }

  /** Each line starts with its metric name and an opening brace and ends with
      its value: 1 for the info and counter lines, the trust score for the
      trust-score line. */
  lemma LineShapes(f: MetricFields)
    ensures var lines := MetricLines(f);
      if IsFinal(f) then
        && StartsWith(lines[0], "ship_trust_score{") && EndsWith(lines[0], "} " + Render(f.trustScore))
        && StartsWith(lines[1], "ship_report_number_total{") && EndsWith(lines[1], "} 1")
      else
        StartsWith(lines[0], "ship_info{") && EndsWith(lines[0], "} 1")
  {
    var stage := StageOf(f);
    if IsFinal(f) {
      TrustLineShape(f.sourceAccountId, f.latitude, f.longitude, Render(f.reportNumber), stage, Render(f.trustScore));
      CountLineShape(f.sourceAccountId, f.latitude, f.longitude, stage);
    } else {
      InfoLineShape(f.sourceAccountId, f.latitude, f.longitude, stage);
    }
  }

  /** Whatever follows it, an opening starts with the metric name and a brace. */
  lemma OpeningStarts(metric: string, acct: string, rest: string)
    ensures StartsWith(Opening(metric, acct) + rest, metric + "{")
  {
    var line := Opening(metric, acct) + rest;
    assert line == metric + "{" + ("source_account_id=\"" + acct + "\"," + rest);
    assert line[..|metric + "{"|] == metric + "{";
  }

  /** A line ending in `end` ends in any suffix of `end`. */
  lemma EndsWithSuffix(front: string, end: string, suffix: string)
    requires EndsWith(end, suffix)
    ensures EndsWith(front + end, suffix)
  {
    var line := front + end;
    assert line[|line| - |suffix|..] == end[|end| - |suffix|..];
  }

  /** Text ending in `suffix`, then `more`: the whole ends in `suffix + more`. */
  lemma EndsWithExtended(text: string, suffix: string, more: string)
    requires EndsWith(text, suffix)
    ensures EndsWith(text + more, suffix + more)
  {
    var line := text + more;
    assert line[|line| - |suffix + more|..] == text[|text| - |suffix|..] + more;
  }

  lemma InfoLineShape(acct: string, lat: string, lon: string, stage: string)
    ensures StartsWith(InfoLine(acct, lat, lon, stage), "ship_info{")
    ensures EndsWith(InfoLine(acct, lat, lon, stage), "} 1")
  {
    OpeningStarts("ship_info", acct, InfoLabels(lat, lon, stage));
    EndsWithSuffix(Place(lat, lon) + "stage=\"" + stage, "\"} 1", "} 1");
    EndsWithSuffix(Opening("ship_info", acct), InfoLabels(lat, lon, stage), "} 1");
  }

  lemma TrustLineShape(acct: string, lat: string, lon: string, number: string, stage: string, score: string)
    ensures StartsWith(TrustLine(acct, lat, lon, number, stage, score), "ship_trust_score{")
    ensures EndsWith(TrustLine(acct, lat, lon, number, stage, score), "} " + score)
  {
    OpeningStarts("ship_trust_score", acct, TrustLabels(lat, lon, number, stage, score));
    var front := Place(lat, lon) + "report_number=\"" + number + "\",stage=\"" + stage;
    EndsWithSuffix(front, "\",enriched=\"true\"} ", "} ");
    EndsWithExtended(front + "\",enriched=\"true\"} ", "} ", score);
    EndsWithSuffix(Opening("ship_trust_score", acct), TrustLabels(lat, lon, number, stage, score), "} " + score);
  }

  lemma CountLineShape(acct: string, lat: string, lon: string, stage: string)
    ensures StartsWith(CountLine(acct, lat, lon, stage), "ship_report_number_total{")
    ensures EndsWith(CountLine(acct, lat, lon, stage), "} 1")
  {
    OpeningStarts("ship_report_number_total", acct, CountLabels(lat, lon, stage));
    EndsWithSuffix(Place(lat, lon) + "stage=\"" + stage, "\",enriched=\"true\"} 1", "} 1");
    EndsWithSuffix(Opening("ship_report_number_total", acct), CountLabels(lat, lon, stage), "} 1");
  }

  /** None of the label values the renderer interpolates holds a newline. */
  predicate SingleLineFields(f: MetricFields)
  {
    '\n' !in f.sourceAccountId && '\n' !in f.latitude && '\n' !in f.longitude
    && '\n' !in Render(f.reportNumber) && '\n' !in Render(f.trustScore)
  }

  lemma OpeningSingle(metric: string, acct: string)
    requires '\n' !in metric && '\n' !in acct
    ensures '\n' !in Opening(metric, acct)
  {
    assert '\n' !in "{source_account_id=\"";
  }

  lemma PlaceSingle(lat: string, lon: string)
    requires '\n' !in lat && '\n' !in lon
    ensures '\n' !in Place(lat, lon)
  {
  }

  lemma InfoLineSingle(acct: string, lat: string, lon: string, stage: string)
    requires '\n' !in acct && '\n' !in lat && '\n' !in lon && '\n' !in stage
    ensures '\n' !in InfoLine(acct, lat, lon, stage)
  {
    OpeningSingle("ship_info", acct);
    PlaceSingle(lat, lon);
  }

  lemma TrustLineSingle(acct: string, lat: string, lon: string, number: string, stage: string, score: string)
    requires '\n' !in acct && '\n' !in lat && '\n' !in lon && '\n' !in number && '\n' !in stage && '\n' !in score
    ensures '\n' !in TrustLine(acct, lat, lon, number, stage, score)
  {
    assert '\n' !in "ship_trust_score";
    OpeningSingle("ship_trust_score", acct);
    PlaceSingle(lat, lon);
    assert '\n' !in "report_number=\"" && '\n' !in "\",stage=\"" && '\n' !in "\",enriched=\"true\"} ";
  }

  lemma CountLineSingle(acct: string, lat: string, lon: string, stage: string)
    requires '\n' !in acct && '\n' !in lat && '\n' !in lon && '\n' !in stage
    ensures '\n' !in CountLine(acct, lat, lon, stage)
  {
    assert '\n' !in "ship_report_number_total";
    OpeningSingle("ship_report_number_total", acct);
    PlaceSingle(lat, lon);
    assert '\n' !in "\",enriched=\"true\"} 1";
  }

  lemma MetricLinesSingle(f: MetricFields)
    requires SingleLineFields(f)
    ensures forall i :: 0 <= i < |MetricLines(f)| ==> '\n' !in MetricLines(f)[i]
  {
    var stage := StageOf(f);
    assert '\n' !in stage;
    if IsFinal(f) {
      TrustLineSingle(f.sourceAccountId, f.latitude, f.longitude, Render(f.reportNumber), stage, Render(f.trustScore));
      CountLineSingle(f.sourceAccountId, f.latitude, f.longitude, stage);
    } else {
      InfoLineSingle(f.sourceAccountId, f.latitude, f.longitude, stage);
    }
  }

  /** The rendered text, split at newlines, is exactly the list of lines: one
      line for a report that is not final, two for a final one, and no
      trailing newline. */
  lemma {:induction false} RenderedLineCount(ship: ShipData)
    requires ReadFields(ship).Ok? && SingleLineFields(ReadFields(ship).value)
    ensures var f := ReadFields(ship).value;
      && Split(RenderShipMetrics(ship).value, '\n') == MetricLines(f)
      && |Split(RenderShipMetrics(ship).value, '\n')| == (if IsFinal(f) then 2 else 1)
  {
    var f := ReadFields(ship).value;
    MetricLinesSingle(f);
    SplitJoin(MetricLines(f), '\n');
  }

  /** The dict an enriched report becomes on its way to an activity: every
      field under its Python name, unset ones as None. */
  function EnrichedToDict(e: EnrichedReportDetails): map<string, Value>
  {
    map["source_account_id" := Text(e.base.sourceAccountId), "timestamp" := Text(e.base.timestamp),
        "latitude" := Text(e.base.latitude), "longitude" := Text(e.base.longitude),
        "picture_url" := Text(e.base.pictureUrl),
        "vessel_registry" := OptText(e.base.vesselRegistry), "description" := OptText(e.base.description),
        "activity_type" := OptText(e.base.activityType), "vessel_heading" := OptText(e.base.vesselHeading),
        "report_number" := OptText(e.reportNumber), "trust_score" := OptScore(e.trustScore),
        "ais_neighbours" := (if e.aisNeighbours.Some? then TextList(e.aisNeighbours.value) else Null),
        "visibility" := (if e.visibility.Some? then Integer(e.visibility.value) else Null),
        "enriched_description" := OptText(e.enrichedDescription)]
  }

  /** The dict a plain report becomes: its nine fields, and no enrichment keys. */
  function ReportToDict(r: ReportDetails): map<string, Value>
  {
    map["source_account_id" := Text(r.sourceAccountId), "timestamp" := Text(r.timestamp),
        "latitude" := Text(r.latitude), "longitude" := Text(r.longitude),
        "picture_url" := Text(r.pictureUrl),
        "vessel_registry" := OptText(r.vesselRegistry), "description" := OptText(r.description),
        "activity_type" := OptText(r.activityType), "vessel_heading" := OptText(r.vesselHeading)]
  }

  /** Rendering a report read back from its dict form gives the same fields,
      hence the same text, as rendering the report object. */
  lemma DictAndObjectAgree(e: EnrichedReportDetails)
    ensures ReadFields(Dict(EnrichedToDict(e))) == ReadFields(Enriched(e))
    ensures RenderShipMetrics(Dict(EnrichedToDict(e))) == RenderShipMetrics(Enriched(e))
  {
    var m := EnrichedToDict(e);
    assert m["source_account_id"] == Text(e.base.sourceAccountId);
    assert m["latitude"] == Text(e.base.latitude) && m["longitude"] == Text(e.base.longitude);
    assert m["report_number"] == OptText(e.reportNumber) && m["trust_score"] == OptScore(e.trustScore);
  }

  lemma ReportDictAndObjectAgree(r: ReportDetails)
    ensures ReadFields(Dict(ReportToDict(r))) == ReadFields(Report(r))
    ensures RenderShipMetrics(Dict(ReportToDict(r))) == RenderShipMetrics(Report(r))
  {
    var m := ReportToDict(r);
    assert m["source_account_id"] == Text(r.sourceAccountId);
    assert m["latitude"] == Text(r.latitude) && m["longitude"] == Text(r.longitude);
    assert "report_number" !in m && "trust_score" !in m;
  }

  /** A plain report, and an enriched report fresh from it, are never final. */
  lemma UnenrichedIsInitial(r: ReportDetails)
    ensures !IsFinal(ReadFields(Report(r)).value)
    ensures !IsFinal(ReadFields(Enriched(FromReport(r))).value)
    ensures StageOf(ReadFields(Report(r)).value) == "initial"
  {
  }

  /** An enriched report is final exactly when report number and trust score are set. */
  lemma EnrichedFinalIff(e: EnrichedReportDetails)
    ensures IsFinal(ReadFields(Enriched(e)).value) <==> e.reportNumber.Some? && e.trustScore.Some?
  {
  }
}
