/** The HTTP front end's metrics sink. A submission schedules a background task.
    The background task stores an initial snapshot, starts a workflow run and, once the
    run returns, stores a final snapshot. Tasks may start and finish in any
    order. */
module Server {
  import opened Wrappers
  import opened Text
  import opened Shared
  import opened Activities
  import opened Workflow

  /** The four HELP/TYPE lines `/metrics` always puts first. The counter is
      declared as `ship_ais_number_total`, while the rendered lines name it
      `ship_report_number_total`. */
  const ExpositionHeader: seq<string> := [
    HelpLine("ship_trust_score", "Trust score for ships"),
    TypeLine("ship_trust_score", "gauge"),
    HelpLine("ship_ais_number_total", "Total number of ships with AIS numbers"),
    TypeLine("ship_ais_number_total", "counter")]

  /** The JSON body `submit_ship` answers with. */
  datatype SubmitResponse = SubmitResponse(status: string, detail: string)

  const Accepted := SubmitResponse("accepted", "Processing started")

  /** The id a report's workflow run is started under. */
  function WorkflowId(ship: ReportDetails): (id: string)
    ensures StartsWith(id, "ship-") && id[5..] == ship.sourceAccountId
  {
    "ship-" + ship.sourceAccountId
  }

  /** Whether a run under workflow id `id` is still in flight. */
  predicate IdInUse(running: seq<ReportDetails>, id: string)
  {
    exists k :: 0 <= k < |running| && WorkflowId(running[k]) == id
  }

  /** Two reports share a workflow id exactly when they come from the same
      account, so a second report from an account whose run is in flight
      never gets a run of its own. */
  lemma {:induction false} WorkflowIdClash(a: ReportDetails, b: ReportDetails)
    ensures WorkflowId(a) == WorkflowId(b) <==> a.sourceAccountId == b.sourceAccountId
  {
    if WorkflowId(a) == WorkflowId(b) {
      assert WorkflowId(a)[5..] == WorkflowId(b)[5..];
    }
  }

  /** A report's run cannot start exactly when a report from the same
      account is still in flight. */
  lemma IdInUseIffSameAccount(running: seq<ReportDetails>, ship: ReportDetails)
    ensures IdInUse(running, WorkflowId(ship))
      <==> exists k :: 0 <= k < |running| && running[k].sourceAccountId == ship.sourceAccountId
  {
    forall k | 0 <= k < |running| {
      WorkflowIdClash(running[k], ship);
    }
  }

  /** The snapshot the background task stores before starting the run: the report object
      rendered directly. */
  function ServerInitialSnapshot(ship: ReportDetails): string
  {
    RenderShipMetrics(Report(ship)).value
  }

  /** The snapshot the background task stores from the run's result. */
  function ServerFinalSnapshot(e: EnrichedReportDetails): string
  {
    RenderShipMetrics(Enriched(e)).value
  }

  class MetricsSink {
    var initialMetrics: seq<string>
    var finalMetrics: seq<string>
    /** Reports submitted whose background task has not started yet. */
    var pending: seq<ReportDetails>
    /** Tasks that stored their initial snapshot and await their run's result. */
    var running: seq<ReportDetails>
    /** Tasks whose run could not start or failed, so that they stored no
        final snapshot. */
    ghost var failed: nat

    /** Every initial snapshot belongs to a task that is still waiting, that
        stored its final snapshot, or whose run failed. */
    ghost predicate Valid()
      reads this
    {
      |initialMetrics| == |running| + |finalMetrics| + failed
    }

    constructor()
      ensures Valid()
      ensures initialMetrics == [] && finalMetrics == [] && pending == [] && running == []
    {
      initialMetrics := [];
      finalMetrics := [];
      pending := [];
      running := [];
      failed := 0;
    }

    /** `submit_ship`: schedule the background task and answer at once. The
        answer does not depend on the report or on how the run will end. */
    method SubmitShip(ship: ReportDetails) returns (response: SubmitResponse)
      requires Valid()
      modifies this
      ensures Valid()
      ensures response == Accepted
      ensures pending == old(pending) + [ship]
      ensures initialMetrics == old(initialMetrics) && finalMetrics == old(finalMetrics)
      ensures running == old(running)
    {
      pending := pending + [ship];
      response := Accepted;
    }

    /** The first half of the background task for the `i`-th pending report:
        store its initial snapshot, then start its workflow run. Starting
        raises when a run under the same workflow id is still in flight; the
        task has no handler for that, so it ends with only its initial
        snapshot stored. */
    method StartBackgroundRun(i: nat) returns (workflowId: string, started: bool)
      requires Valid() && i < |pending|
      modifies this
      ensures Valid()
      ensures workflowId == WorkflowId(old(pending)[i])
      ensures started <==> !IdInUse(old(running), workflowId)
      ensures initialMetrics == old(initialMetrics) + [ServerInitialSnapshot(old(pending)[i])]
      ensures finalMetrics == old(finalMetrics)
      ensures pending == old(pending)[..i] + old(pending)[i + 1..]
      ensures started ==> running == old(running) + [old(pending)[i]]
      ensures !started ==> running == old(running)
    {
      var ship := pending[i];
      var initialMetric := RenderShipMetrics(Report(ship));
      initialMetrics := initialMetrics + [initialMetric.value];
      workflowId := WorkflowId(ship);
      pending := pending[..i] + pending[i + 1..];
      started := !IdInUse(running, workflowId);
      if started {
        running := running + [ship];
      } else {
        failed := failed + 1;
      }
    }

    /** The second half of the background task for the `j`-th running report:
        the workflow run produces its result, which is stored as a final
        snapshot when the run succeeded. A failed run ends the background task with nothing
        stored. */
    method FinishBackgroundRun(j: nat, outcomes: StepOutcomes)
      returns (result: Result<EnrichedReportDetails, StepFailure>)
      requires Valid() && j < |running| && DrawsInRange(outcomes)
      modifies this
      ensures Valid()
      ensures result.Ok? <==> RequiredStepsComplete(outcomes)
      ensures result.Ok? ==> HoldsStepResults(old(running)[j], outcomes, result.value)
      ensures result.Ok? ==> result.value.reportNumber.Some? && result.value.trustScore.Some?
      ensures result.Ok? ==> finalMetrics == old(finalMetrics) + [ServerFinalSnapshot(result.value)]
      ensures result.Err? ==> finalMetrics == old(finalMetrics)
      ensures initialMetrics == old(initialMetrics) && pending == old(pending)
      ensures running == old(running)[..j] + old(running)[j + 1..]
    {
      var ship := running[j];
      var handle := new ReportDetailsWorkflow();
      ghost var snapshots;
      result, snapshots := handle.Run(ship, outcomes);
      if result.Ok? {
        var finalMetric := RenderShipMetrics(Enriched(result.value));
        finalMetrics := finalMetrics + [finalMetric.value];
      } else {
        failed := failed + 1;
      }
      running := running[..j] + running[j + 1..];
    }

    /** `/metrics`: the header lines, then every initial snapshot followed by
        every final snapshot, joined by newlines. */
    function GetMetrics(): (text: string)
      reads this
    {
      Terminated(ExpositionHeader) + Join(initialMetrics + finalMetrics, "\n")
    }
  }

  lemma AisHeaderSingle()
    ensures '\n' !in ExpositionHeader[2] && '\n' !in ExpositionHeader[3]
  {
    assert '\n' !in "ship_ais_number_total" && '\n' !in "Total number of ships with AIS numbers";
    assert '\n' !in "counter";
    CommentLinesSingle("ship_ais_number_total", "Total number of ships with AIS numbers");
    CommentLinesSingle("ship_ais_number_total", "counter");
  }

  lemma ExpositionHeaderSingleLines()
    ensures forall i :: 0 <= i < |ExpositionHeader| ==> '\n' !in ExpositionHeader[i]
  {
    TrustHeaderSingle();
    AisHeaderSingle();
  }

  /** At most as many final snapshots as initial ones, whatever order the
      tasks ran in. */
  lemma FinalNeverOutnumbersInitial(s: MetricsSink)
    requires s.Valid()
    ensures |s.finalMetrics| <= |s.initialMetrics|
  {
  }

  /** Split at newlines, `/metrics` is always the four header lines, followed
      by the lines of every initial snapshot and then of every final one, each
      group in the order stored. With nothing stored, the header is followed by
      one empty line. */
  lemma {:induction false} MetricsLines(s: MetricsSink)
    ensures s.initialMetrics + s.finalMetrics == [] ==>
      Split(s.GetMetrics(), '\n') == ExpositionHeader + [""]
    ensures s.initialMetrics + s.finalMetrics != [] ==>
      Split(s.GetMetrics(), '\n') == ExpositionHeader + SplitEach(s.initialMetrics, '\n') + SplitEach(s.finalMetrics, '\n')
  {
    var all := s.initialMetrics + s.finalMetrics;
    assert s.GetMetrics() == Terminated(ExpositionHeader) + Join(all, "\n");
    ExpositionHeaderSingleLines();
    SplitHeaderAndJoin(ExpositionHeader, all);
    if all != [] {
      SplitEachAppend(s.initialMetrics, s.finalMetrics, '\n');
      SeqAssoc(ExpositionHeader, SplitEach(s.initialMetrics, '\n'), SplitEach(s.finalMetrics, '\n'));
    }
  }

  /** The answer always begins with the header, even before any submission. */
  lemma MetricsStartWithHeader(s: MetricsSink)
    ensures StartsWith(s.GetMetrics(), Terminated(ExpositionHeader))
  {
    var h := Terminated(ExpositionHeader);
    assert s.GetMetrics()[..|h|] == h;
  }

  /** The server renders the report objects directly, while the workflow's
      activity receives them as dicts; both give the same snapshots. */
  lemma SnapshotsMatchWorkflow(ship: ReportDetails, e: EnrichedReportDetails)
    ensures Ok(ServerInitialSnapshot(ship)) == ConvertToPrometheusMetrics(Dict(ReportToDict(ship)))
    ensures Ok(ServerFinalSnapshot(e)) == ConvertToPrometheusMetrics(Dict(EnrichedToDict(e)))
  {
    ReportDictAndObjectAgree(ship);
    DictAndObjectAgree(e);
  }
}
