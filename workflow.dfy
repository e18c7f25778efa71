/** The report-enrichment workflow: it keeps the metric snapshots it stored and
    answers the metrics query from them. Each activity call is represented by
    the outcome the engine hands back once its retries are spent. */
module Workflow {
  import opened Wrappers
  import opened Text
  import opened Shared
  import opened Activities

  /** What awaiting one activity yields: its result, or the failure the engine
      raises once the retry policy gives up. */
  datatype Attempt<T> = Completed(value: T) | Exhausted(reason: string)

  /** The outcome of every step of one run. The stub steps are given by the
      random draw they make; the neighbours step and the narrative step are given
      by their result directly. */
  datatype StepOutcomes = StepOutcomes(
    reportNumberDraw: Attempt<int>,
    visibilityDraw: Attempt<int>,
    neighbours: Attempt<seq<string>>,
    trustDraw: Attempt<real>,
    narrative: Attempt<string>)

  /** Every completed draw lies in the range its random call is given. */
  predicate DrawsInRange(o: StepOutcomes)
  {
    && (o.reportNumberDraw.Completed? ==> 10000 <= o.reportNumberDraw.value <= 99999)
    && (o.visibilityDraw.Completed? ==> 5 <= o.visibilityDraw.value <= 10)
    && (o.trustDraw.Completed? ==> 0.5 <= o.trustDraw.value <= 1.0)
  }

  /** The enrichment fields, named in the order the run fills them. */
  datatype Field = ReportNumber | Visibility | AisNeighbours | TrustScore | EnrichedDescription

  const FieldOrder: seq<Field> := [ReportNumber, Visibility, AisNeighbours, TrustScore, EnrichedDescription]

  /** A failed run: the field whose step failed and the failure it raised. */
  datatype StepFailure = StepFailure(field: Field, reason: string)

  /** The description stored when the narrative step fails. */
  const EnrichmentFailedDescription := "Description enrichment failed. Please check the logs for details."

  /** The four HELP/TYPE lines the metrics query puts first. */
  const QueryHeader: seq<string> := [
    HelpLine("ship_trust_score", "Trust score for ships"),
    TypeLine("ship_trust_score", "gauge"),
    HelpLine("ship_report_number_total", "Total number of ships with AIS numbers"),
    TypeLine("ship_report_number_total", "counter")]

  /** A Prometheus HELP comment line. */
  function HelpLine(metric: string, help: string): string
  {
    "# HELP " + metric + " " + help
  }

  /** A Prometheus TYPE comment line. */
  function TypeLine(metric: string, kind: string): string
  {
    "# TYPE " + metric + " " + kind
  }

  /** The steps whose failure ends the run: all but the narrative step. */
  predicate RequiredStepsComplete(o: StepOutcomes)
  {
    o.reportNumberDraw.Completed? && o.visibilityDraw.Completed? && o.neighbours.Completed? && o.trustDraw.Completed?
  }

  /** Whether the step filling `f` yielded a value; the narrative step always
      does, its failure being replaced by the fixed text. */
  predicate StepCompleted(o: StepOutcomes, f: Field)
  {
    match f
    case ReportNumber => o.reportNumberDraw.Completed?
    case Visibility => o.visibilityDraw.Completed?
    case AisNeighbours => o.neighbours.Completed?
    case TrustScore => o.trustDraw.Completed?
    case EnrichedDescription => true
  }

  /** Every step before the `k`-th in the fill order yielded a value. */
  predicate CompletedBefore(o: StepOutcomes, k: nat)
  {
    forall i :: 0 <= i < k && i < |FieldOrder| ==> StepCompleted(o, FieldOrder[i])
  }

  /** The first required step that failed. */
  function FirstFailure(o: StepOutcomes): (f: StepFailure)
    requires !RequiredStepsComplete(o)
    ensures FieldIndex(f.field) < 4 && !StepCompleted(o, f.field)
    ensures CompletedBefore(o, FieldIndex(f.field))
  {
    if o.reportNumberDraw.Exhausted? then StepFailure(ReportNumber, o.reportNumberDraw.reason)
    else if o.visibilityDraw.Exhausted? then StepFailure(Visibility, o.visibilityDraw.reason)
    else if o.neighbours.Exhausted? then StepFailure(AisNeighbours, o.neighbours.reason)
    else StepFailure(TrustScore, o.trustDraw.reason)
  }

  /** Where a field stands in the fill order. */
  function FieldIndex(f: Field): (i: nat)
    ensures i < |FieldOrder| && FieldOrder[i] == f
  {
    match f
    case ReportNumber => 0
    case Visibility => 1
    case AisNeighbours => 2
    case TrustScore => 3
    case EnrichedDescription => 4
  }

  /** How many fields a run with this result has filled: all five when it
      succeeded, otherwise those before the one whose step failed. */
  function FilledCount(r: Result<EnrichedReportDetails, StepFailure>): (n: nat)
    ensures n <= |FieldOrder|
  {
    if r.Ok? then |FieldOrder| else FieldIndex(r.error.field)
  }

  /** The description the narrative step leaves: its text, or the fixed one. */
  function Narrative(o: StepOutcomes): string
  {
    if o.narrative.Completed? then o.narrative.value else EnrichmentFailedDescription
  }

  /** The report after the step filling `f` stored its result, computed from
      the report as that step receives it. */
  function Fill(e: EnrichedReportDetails, f: Field, o: StepOutcomes): EnrichedReportDetails
    requires DrawsInRange(o) && StepCompleted(o, f)
  {
    match f
    case ReportNumber => e.(reportNumber := Some(AssignReportNumber(e.base, o.reportNumberDraw.value)))
    case Visibility => e.(visibility := Some(CalculateVisibility(e, o.visibilityDraw.value)))
    case AisNeighbours => e.(aisNeighbours := Some(o.neighbours.value))
    case TrustScore => e.(trustScore := Some(CalculateTrustScore(e.base.sourceAccountId, o.trustDraw.value)))
    case EnrichedDescription => e.(enrichedDescription := Some(Narrative(o)))
  }

  /** The reference run: the report after the first `k` steps of the fill
      order, starting from a fresh enriched copy. */
  function Stage(ship: ReportDetails, o: StepOutcomes, k: nat): EnrichedReportDetails
    requires DrawsInRange(o) && k <= |FieldOrder| && CompletedBefore(o, k)
  {
    if k == 0 then FromReport(ship) else Fill(Stage(ship, o, k - 1), FieldOrder[k - 1], o)
  }

  /** Whether a field differs from the value a fresh enriched report holds. */
  predicate Assigned(e: EnrichedReportDetails, f: Field)
  {
    match f
    case ReportNumber => e.reportNumber.Some?
    case Visibility => e.visibility != Some(1)
    case AisNeighbours => e.aisNeighbours.Some?
    case TrustScore => e.trustScore.Some?
    case EnrichedDescription => e.enrichedDescription.Some?
  }

  /** A step assigns its own field and leaves the report and every other
      field as they were. */
  lemma FillAssignsOnlyItsField(e: EnrichedReportDetails, f: Field, o: StepOutcomes)
    requires DrawsInRange(o) && StepCompleted(o, f)
    ensures Fill(e, f, o).base == e.base && Assigned(Fill(e, f, o), f)
    ensures forall g :: g != f ==> (Assigned(Fill(e, f, o), g) <==> Assigned(e, g))
  {
  }

  /** After `k` steps exactly the first `k` fields of the fill order are
      assigned, the others still hold their fresh values, and the report is
      the one the run received. */
  lemma {:induction false} StageFieldsInOrder(ship: ReportDetails, o: StepOutcomes, k: nat)
    requires DrawsInRange(o) && k <= |FieldOrder| && CompletedBefore(o, k)
    ensures Stage(ship, o, k).base == ship
    ensures forall i :: 0 <= i < |FieldOrder| ==> (Assigned(Stage(ship, o, k), FieldOrder[i]) <==> i < k)
  {
    if k > 0 {
      StageFieldsInOrder(ship, o, k - 1);
      var f := FieldOrder[k - 1];
      FillAssignsOnlyItsField(Stage(ship, o, k - 1), f, o);
      forall i | 0 <= i < |FieldOrder|
        ensures Assigned(Stage(ship, o, k), FieldOrder[i]) <==> i < k
      {
        if i != k - 1 {
          assert FieldOrder[i] != f by { assert FieldIndex(FieldOrder[i]) == i; }
        }
      }
    }
  }

  /** The narrative step receives the report with report number, visibility,
      neighbours and trust score already holding their steps' results, and
      its description still unset. */
  lemma NarrativeSeesEnrichedReport(ship: ReportDetails, o: StepOutcomes)
    requires DrawsInRange(o) && RequiredStepsComplete(o)
    ensures var e := Stage(ship, o, 4);
      && e.base == ship
      && e.reportNumber == Some(AssignReportNumber(ship, o.reportNumberDraw.value))
      && e.visibility == Some(o.visibilityDraw.value)
      && e.aisNeighbours == Some(o.neighbours.value)
      && e.trustScore == Some(CalculateTrustScore(ship.sourceAccountId, o.trustDraw.value))
      && e.enrichedDescription == None
  {
    var s0 := Stage(ship, o, 0);
    var s1 := Stage(ship, o, 1);
    var s2 := Stage(ship, o, 2);
    var s3 := Stage(ship, o, 3);
    var s4 := Stage(ship, o, 4);
    assert s1 == Fill(s0, ReportNumber, o);
    assert s2 == Fill(s1, Visibility, o);
    assert s3 == Fill(s2, AisNeighbours, o);
    assert s4 == Fill(s3, TrustScore, o);
  }

  /** A completed report holds every step's own result, computed from the
      report the run received. */
  predicate HoldsStepResults(ship: ReportDetails, o: StepOutcomes, e: EnrichedReportDetails)
    requires DrawsInRange(o) && RequiredStepsComplete(o)
  {
    && e.base == ship
    && e.reportNumber == Some(AssignReportNumber(ship, o.reportNumberDraw.value))
    && e.visibility == Some(o.visibilityDraw.value)
    && e.aisNeighbours == Some(o.neighbours.value)
    && e.trustScore == Some(CalculateTrustScore(ship.sourceAccountId, o.trustDraw.value))
    && e.enrichedDescription == Some(Narrative(o))
  }

  lemma FinalStageValues(ship: ReportDetails, o: StepOutcomes)
    requires DrawsInRange(o) && RequiredStepsComplete(o)
    ensures HoldsStepResults(ship, o, Stage(ship, o, |FieldOrder|))
  {
    var s0 := Stage(ship, o, 0);
    var s1 := Stage(ship, o, 1);
    var s2 := Stage(ship, o, 2);
    var s3 := Stage(ship, o, 3);
    var s4 := Stage(ship, o, 4);
    var s5 := Stage(ship, o, 5);
    assert s1 == Fill(s0, ReportNumber, o);
    assert s2 == Fill(s1, Visibility, o);
    assert s3 == Fill(s2, AisNeighbours, o);
    assert s4 == Fill(s3, TrustScore, o);
    assert s5 == Fill(s4, EnrichedDescription, o);
  }

  /** The snapshot the convert activity renders from the report as it arrives.
      The engine hands the activity the report's fields as a dict; that dict
      renders as the report object does (`InitialSnapshotIsInitial`). */
  function InitialSnapshot(ship: ReportDetails): string
  {
    ConvertToPrometheusMetrics(Report(ship)).value
  }

  /** The snapshot rendered from the enriched report, received as a dict in
      the same way (`FinalSnapshotIsFinal`). */
  function FinalSnapshot(e: EnrichedReportDetails): string
  {
    ConvertToPrometheusMetrics(Enriched(e)).value
  }

  /** `snapshots[k]` is the reference report after the first `k` steps, all
      of which completed. */
  ghost predicate AreStages(ship: ReportDetails, o: StepOutcomes, snapshots: seq<EnrichedReportDetails>)
    requires DrawsInRange(o)
  {
    forall k :: 0 <= k < |snapshots| ==> k <= |FieldOrder| && CompletedBefore(o, k) && snapshots[k] == Stage(ship, o, k)
  }

  /** What the enrichment steps of a run come to: the run succeeds exactly when
      the four required steps complete, and otherwise fails with the first
      failure; `snapshots[k]` is the report after the first `k` steps, which
      is the reference stage `Stage(ship, outcomes, k)`, for every step the
      run got through; a successful run returns the last of them. */
  ghost predicate StepsFollowed(ship: ReportDetails, outcomes: StepOutcomes,
                                result: Result<EnrichedReportDetails, StepFailure>,
                                snapshots: seq<EnrichedReportDetails>)
    requires DrawsInRange(outcomes)
  {
    && (result.Ok? <==> RequiredStepsComplete(outcomes))
    && (result.Err? ==> result.error == FirstFailure(outcomes))
    && |snapshots| == FilledCount(result) + 1
    && AreStages(ship, outcomes, snapshots)
    && (result.Ok? ==> result.value == snapshots[|FieldOrder|])
    && (result.Ok? ==> HoldsStepResults(ship, outcomes, result.value))
  }

  /** One more step keeps the recorded snapshots the reference stages. */
  lemma ExtendStages(ship: ReportDetails, o: StepOutcomes, snapshots: seq<EnrichedReportDetails>, k: nat)
    requires DrawsInRange(o) && AreStages(ship, o, snapshots)
    requires |snapshots| == k + 1 && k < |FieldOrder| && StepCompleted(o, FieldOrder[k])
    ensures AreStages(ship, o, snapshots + [Fill(snapshots[k], FieldOrder[k], o)])
  {
    var next := snapshots + [Fill(snapshots[k], FieldOrder[k], o)];
    assert CompletedBefore(o, k + 1);
    forall j | 0 <= j < |next|
      ensures j <= |FieldOrder| && CompletedBefore(o, j) && next[j] == Stage(ship, o, j)
    {
      if j <= k {
        assert next[j] == snapshots[j];
      }
    }
  }

  /** A run that stops at the `k`-th step, the first that failed, has fired
      exactly the stages before it. */
  lemma StoppedAt(ship: ReportDetails, o: StepOutcomes, snapshots: seq<EnrichedReportDetails>, k: nat)
    requires DrawsInRange(o) && AreStages(ship, o, snapshots)
    requires |snapshots| == k + 1 && k < 4 && !StepCompleted(o, FieldOrder[k])
    ensures !RequiredStepsComplete(o) && FirstFailure(o).field == FieldOrder[k]
    ensures StepsFollowed(ship, o, Err(FirstFailure(o)), snapshots)
  {
    assert CompletedBefore(o, k);
  }

  /** The steps between the two snapshots: an enriched copy of the report is
      filled field by field, and the first required step that fails ends the
      run. `snapshots` records the copy after each step. */
  method EnrichmentSteps(ship: ReportDetails, outcomes: StepOutcomes)
    returns (result: Result<EnrichedReportDetails, StepFailure>, ghost snapshots: seq<EnrichedReportDetails>)
    requires DrawsInRange(outcomes)
    ensures result.Ok? <==> RequiredStepsComplete(outcomes)
    ensures result.Ok? ==> result.value == Stage(ship, outcomes, |FieldOrder|)
    ensures StepsFollowed(ship, outcomes, result, snapshots)
  {
    var enriched := FromReport(ship);
    snapshots := [enriched];

    if outcomes.reportNumberDraw.Exhausted? {
      StoppedAt(ship, outcomes, snapshots, 0);
      return Err(StepFailure(ReportNumber, outcomes.reportNumberDraw.reason)), snapshots;
    }
    ExtendStages(ship, outcomes, snapshots, 0);
    enriched := enriched.(reportNumber := Some(AssignReportNumber(enriched.base, outcomes.reportNumberDraw.value)));
    snapshots := snapshots + [enriched];

    if outcomes.visibilityDraw.Exhausted? {
      StoppedAt(ship, outcomes, snapshots, 1);
      return Err(StepFailure(Visibility, outcomes.visibilityDraw.reason)), snapshots;
    }
    ExtendStages(ship, outcomes, snapshots, 1);
    enriched := enriched.(visibility := Some(CalculateVisibility(enriched, outcomes.visibilityDraw.value)));
    snapshots := snapshots + [enriched];

    if outcomes.neighbours.Exhausted? {
      StoppedAt(ship, outcomes, snapshots, 2);
      return Err(StepFailure(AisNeighbours, outcomes.neighbours.reason)), snapshots;
    }
    ExtendStages(ship, outcomes, snapshots, 2);
    enriched := enriched.(aisNeighbours := Some(outcomes.neighbours.value));
    snapshots := snapshots + [enriched];

    if outcomes.trustDraw.Exhausted? {
      StoppedAt(ship, outcomes, snapshots, 3);
      return Err(StepFailure(TrustScore, outcomes.trustDraw.reason)), snapshots;
    }
    ExtendStages(ship, outcomes, snapshots, 3);
    enriched := enriched.(trustScore := Some(CalculateTrustScore(enriched.base.sourceAccountId, outcomes.trustDraw.value)));
    snapshots := snapshots + [enriched];

    var description := if outcomes.narrative.Completed? then outcomes.narrative.value else EnrichmentFailedDescription;
    ExtendStages(ship, outcomes, snapshots, 4);
    enriched := enriched.(enrichedDescription := Some(description));
    snapshots := snapshots + [enriched];
    FinalStageValues(ship, outcomes);
    result := Ok(enriched);
  }

  class ReportDetailsWorkflow {
    /** The snapshots stored so far, oldest first. */
    var metrics: seq<string>

    constructor()
      ensures metrics == []
    {
      metrics := [];
    }

    /** One run: store the initial snapshot, run the enrichment steps, and on
        success store the final snapshot. A failed run keeps its initial
        snapshot and stores nothing more. */
    method Run(ship: ReportDetails, outcomes: StepOutcomes)
      returns (result: Result<EnrichedReportDetails, StepFailure>, ghost snapshots: seq<EnrichedReportDetails>)
      requires DrawsInRange(outcomes)
      modifies this
      ensures StepsFollowed(ship, outcomes, result, snapshots)
      ensures result.Ok? ==> metrics == old(metrics) + [InitialSnapshot(ship), FinalSnapshot(result.value)]
      ensures result.Err? ==> metrics == old(metrics) + [InitialSnapshot(ship)]
    {
      var initialMetric := InitialSnapshot(ship);
      metrics := metrics + [initialMetric];

      result, snapshots := EnrichmentSteps(ship, outcomes);

      if result.Ok? {
        var finalMetric := FinalSnapshot(result.value);
        metrics := metrics + [finalMetric];
      }
    }

    /** The metrics query: nothing before the first snapshot, otherwise the
        header lines followed by the snapshots joined by newlines. */
    function GetMetrics(): (text: string)
      reads this
      ensures metrics == [] <==> text == ""
    {
      if metrics == [] then "" else Terminated(QueryHeader) + Join(metrics, "\n")
    }
  }

  lemma CommentLinesSingle(metric: string, text: string)
    requires '\n' !in metric && '\n' !in text
    ensures '\n' !in HelpLine(metric, text) && '\n' !in TypeLine(metric, text)
  {
    assert '\n' !in "# HELP " && '\n' !in "# TYPE ";
  }

  lemma TrustHeaderSingle()
    ensures '\n' !in QueryHeader[0] && '\n' !in QueryHeader[1]
  {
    assert '\n' !in "ship_trust_score" && '\n' !in "Trust score for ships" && '\n' !in "gauge";
    CommentLinesSingle("ship_trust_score", "Trust score for ships");
    CommentLinesSingle("ship_trust_score", "gauge");
  }

  lemma CountHeaderSingle()
    ensures '\n' !in QueryHeader[2] && '\n' !in QueryHeader[3]
  {
    assert '\n' !in "ship_report_number_total" && '\n' !in "Total number of ships with AIS numbers";
    assert '\n' !in "counter";
    CommentLinesSingle("ship_report_number_total", "Total number of ships with AIS numbers");
    CommentLinesSingle("ship_report_number_total", "counter");
  }

  lemma HeaderSingleLines()
    ensures forall i :: 0 <= i < |QueryHeader| ==> '\n' !in QueryHeader[i]
  {
    TrustHeaderSingle();
    CountHeaderSingle();
  }

  /** Split at newlines, the query answer is the four header lines followed by
      the lines of every stored snapshot, in the order they were stored. */
  lemma QueryLines(w: ReportDetailsWorkflow)
    requires w.metrics != []
    ensures Split(w.GetMetrics(), '\n') == QueryHeader + SplitEach(w.metrics, '\n')
  {
    HeaderSingleLines();
    SplitHeaderAndJoin(QueryHeader, w.metrics);
  }

  /** The initial snapshot is what the activity renders from the report's dict,
      and it is a single `ship_info` line with stage "initial". */
  lemma InitialSnapshotIsInitial(ship: ReportDetails)
    ensures ConvertToPrometheusMetrics(Dict(ReportToDict(ship))) == Ok(InitialSnapshot(ship))
    ensures var f := ReadFields(Report(ship)).value;
      !IsFinal(f) && InitialSnapshot(ship) == InfoLine(ship.sourceAccountId, ship.latitude, ship.longitude, "initial")
  {
    ReportDictAndObjectAgree(ship);
  }

  /** Once report number and trust score are set, the snapshot is what the
      activity renders from the report's dict, and it is the final one: the
      two enriched lines with stage "final". */
  lemma FinalSnapshotIsFinal(e: EnrichedReportDetails)
    requires e.reportNumber.Some? && e.trustScore.Some?
    ensures ConvertToPrometheusMetrics(Dict(EnrichedToDict(e))) == Ok(FinalSnapshot(e))
    ensures var f := ReadFields(Enriched(e)).value;
      && IsFinal(f) && StageOf(f) == "final"
      && FinalSnapshot(e) == Join(MetricLines(f), "\n") && |MetricLines(f)| == 2
  {
    DictAndObjectAgree(e);
  }
}
