/** The navigations the toolbar starts (`_cloneRun`, `_compareRuns`,
    `_createNewExperiment`, `_createNewRun`, `_createNewRunFromPipelineVersion`,
    `_createNewPipelineVersion`): whether a page is pushed onto the history, which
    page, and which query parameters its search string is built from. */
module Navigation {
  import opened Common
  import opened Text

  datatype RoutePage = NewRunPage | ComparePage | NewExperimentPage | NewPipelineVersionPage

  datatype QueryParam =
    | CloneFromRun | CloneFromRecurringRun | IsRecurring | Runlist
    | PipelineId | PipelineVersionId | ExperimentId | FromRunId

  /** One `history.push`: the page, and the parameters the search string is built
      from, in order; `None` when the page is pushed with no search string. */
  datatype Push = Push(page: RoutePage, search: Option<seq<(QueryParam, string)>>)

  /** The value of a parameter in a search, `None` when it is absent. */
  function Param(search: seq<(QueryParam, string)>, key: QueryParam): Option<string> {
    if search == [] then None
    else if search[0].0 == key then Some(search[0].1)
    else Param(search[1..], key)
  }

  /** `_cloneRun`: a new-run page cloned from the selected run (or recurring run),
      only when exactly one id is selected. */
  function CloneRun(selectedIds: seq<Id>, isRecurring: bool): (p: Option<Push>)
    ensures p.Some? <==> |selectedIds| == 1
    ensures p.Some? ==> p.value.page == NewRunPage && p.value.search.Some?
    ensures p.Some? && isRecurring ==>
      && Param(p.value.search.value, CloneFromRecurringRun) == Some(selectedIds[0])
      && Param(p.value.search.value, IsRecurring) == Some("1")
      && Param(p.value.search.value, CloneFromRun) == None
    ensures p.Some? && !isRecurring ==>
      && Param(p.value.search.value, CloneFromRun) == Some(selectedIds[0])
      && Param(p.value.search.value, IsRecurring) == None
      && Param(p.value.search.value, CloneFromRecurringRun) == None
  {
    if |selectedIds| == 1 then
      var runId := selectedIds[0];
      if isRecurring then
        var search := [(CloneFromRecurringRun, runId), (IsRecurring, "1")];
        assert search[1..] == [(IsRecurring, "1")] && search[1..][1..] == [];
        assert Param(search[1..][1..], CloneFromRun) == None;
        Some(Push(NewRunPage, Some(search)))
      else
        var search := [(CloneFromRun, runId)];
        assert search[1..] == [];
        Some(Push(NewRunPage, Some(search)))
    else None
  }

  /** The most runs the compare page accepts. */
  const MaxCompared := 10

  /** `_compareRuns`: the compare page listing the selected runs separated by
      commas, only when more than one and at most ten runs are selected. */
  function CompareRuns(selectedIds: seq<Id>): (p: Option<Push>)
    ensures p.Some? <==> 1 < |selectedIds| <= MaxCompared
    ensures p.Some? ==>
      p.value.page == ComparePage && p.value.search.Some?
      && Param(p.value.search.value, Runlist) == Some(Join(selectedIds, ","))
  {
    if 1 < |selectedIds| <= MaxCompared then
      Some(Push(ComparePage, Some([(Runlist, Join(selectedIds, ","))])))
    else None
  }

  /** The compare page gets back exactly the selected runs, in order, from its run
      list, provided no run id contains a comma. */
  lemma CompareRunsRoundTrip(selectedIds: seq<Id>)
    requires 1 < |selectedIds| <= MaxCompared
    requires forall k :: 0 <= k < |selectedIds| ==> ',' !in selectedIds[k]
    ensures Split(Param(CompareRuns(selectedIds).value.search.value, Runlist).value, ',') == selectedIds
  {
    SplitJoin(selectedIds, ',');
  }

  /** `_createNewExperiment`: the new-experiment page, carrying the pipeline id
      exactly when one is given. */
  function CreateNewExperiment(pipelineId: string): (p: Push)
    ensures p.page == NewExperimentPage
    ensures p.search.None? <==> pipelineId == ""
    ensures p.search.Some? ==> Param(p.search.value, PipelineId) == Some(pipelineId)
  {
    Push(NewExperimentPage, if pipelineId != "" then Some([(PipelineId, pipelineId)]) else None)
  }

  /** `_createNewRun`: the new-run page, always carrying an experiment id (empty when
      none is given) and marked recurring exactly when asked to. */
  function CreateNewRun(isRecurring: bool, experimentId: Option<string>): (p: Push)
    ensures p.page == NewRunPage && p.search.Some?
    ensures Param(p.search.value, ExperimentId) == Some(experimentId.GetOr(""))
    ensures Param(p.search.value, IsRecurring) == if isRecurring then Some("1") else None
  {
    var search := [(ExperimentId, experimentId.GetOr(""))] + (if isRecurring then [(IsRecurring, "1")] else []);
    assert search[1..] == (if isRecurring then [(IsRecurring, "1")] else []);
    Push(NewRunPage, Some(search))
  }

  /** `_createNewRunFromPipelineVersion`: the new-run page, carrying the run the page
      was opened from when its URL names one, and otherwise the pipeline and the
      pipeline version. */
  function CreateNewRunFromPipelineVersion(pipelineId: string, pipelineVersionId: string, fromRunId: Option<string>)
    : (p: Push)
    ensures p.page == NewRunPage && p.search.Some?
    ensures fromRunId.Some? && fromRunId.value != "" ==>
      && Param(p.search.value, FromRunId) == fromRunId
      && Param(p.search.value, PipelineId) == None
      && Param(p.search.value, PipelineVersionId) == None
    ensures fromRunId.None? || fromRunId.value == "" ==>
      && Param(p.search.value, FromRunId) == None
      && Param(p.search.value, PipelineId) == Some(pipelineId)
      && Param(p.search.value, PipelineVersionId) == Some(pipelineVersionId)
  {
    if fromRunId.Some? && fromRunId.value != "" then
      var search := [(FromRunId, fromRunId.value)];
      assert search[1..] == [];
      Push(NewRunPage, Some(search))
    else
      var search := [(PipelineId, pipelineId), (PipelineVersionId, pipelineVersionId)];
      assert search[1..] == [(PipelineVersionId, pipelineVersionId)] && search[1..][1..] == [];
      assert Param(search[1..][1..], FromRunId) == None;
      Push(NewRunPage, Some(search))
  }

  /** `_createNewPipelineVersion`: the new-pipeline-version page, carrying the
      pipeline id exactly when one is given. */
  function CreateNewPipelineVersion(pipelineId: string): (p: Push)
    ensures p.page == NewPipelineVersionPage
    ensures p.search.None? <==> pipelineId == ""
    ensures p.search.Some? ==> Param(p.search.value, PipelineId) == Some(pipelineId)
  {
    Push(NewPipelineVersionPage, if pipelineId != "" then Some([(PipelineId, pipelineId)]) else None)
  }
}
