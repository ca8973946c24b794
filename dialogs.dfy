/** The confirmation dialogs of the batch actions (`_dialogActionHandler` and the
    `_archiveRun`, `_restore`, ... wrappers around it): which endpoint, verb, noun
    and body each action uses, the dialog it opens, and what closing that dialog
    by each of its controls does. */
module Dialogs {
  import opened Common
  import opened Text
  import opened Batch

  /** The endpoint each batch calls once per selected id. */
  function ApiOf(kind: BatchKind): ApiOp {
    match kind
    case ArchiveRuns => ArchiveRun
    case ArchiveExperiments => ArchiveExperiment
    case RestoreRuns => UnarchiveRun
    case RestoreExperiments => UnarchiveExperiment
    case RetryRuns => RetryRun
    case DeletePipelines => DeletePipeline
    case DeletePipelineVersions => DeletePipelineVersion
    case DeleteRecurringRun => DeleteJob
    case TerminateRuns => TerminateRun
    case DeleteRuns => ApiOp.DeleteRun
  }

  /** The translated verb of each batch (`actionName`). */
  function ActionName(env: Env, kind: BatchKind): string {
    match kind
    case ArchiveRuns | ArchiveExperiments => env.t("common:archive")
    case RestoreRuns | RestoreExperiments => env.t("common:restore")
    case RetryRuns => env.t("common:retry")
    case TerminateRuns => env.t("common:terminate")
    case DeletePipelines | DeletePipelineVersions | DeleteRecurringRun | DeleteRuns => env.t("common:delete")
  }

  /** The noun of each batch (`resourceName`). */
  function ResourceName(kind: BatchKind): string {
    match kind
    case ArchiveExperiments | RestoreExperiments => "experiment"
    case DeletePipelines => "pipeline"
    case DeletePipelineVersions => "pipeline version"
    case DeleteRecurringRun => "recurring run config"
    case ArchiveRuns | RestoreRuns | RetryRuns | TerminateRuns | DeleteRuns => "run"
  }

  /** The body of the confirmation dialog for `n` selected ids: a fixed translated
      text for retry, terminate, run deletion and recurring-run deletion, and a text
      composed from translated fragments (a collaborator of the model) for the rest. */
  function Content(env: Env, kind: BatchKind, n: nat): string {
    match kind
    case RetryRuns => env.t("common:retryRun")
    case DeleteRecurringRun => env.t("common:terminateRecurRunConfig")
    case TerminateRuns => env.t("pipelines:terminateRun") + env.t("pipelines:terminateRunSuite")
    case DeleteRuns => env.t("common:deleteSelectedRuns")
    case _ => env.body(kind, n)
  }

  /** The ids a batch acts on: the selection, except that recurring-run deletion
      acts on the first selected id only. */
  function Targets(kind: BatchKind, selectedIds: seq<Id>): (r: seq<Id>)
    ensures |r| <= |selectedIds| && r == selectedIds[..|r|]
    ensures kind == DeleteRecurringRun ==> |r| <= 1 && (selectedIds != [] ==> |r| == 1)
    ensures kind != DeleteRecurringRun ==> |r| == |selectedIds|
  {
    if kind == DeleteRecurringRun then (if selectedIds == [] then [] else [selectedIds[0]])
    else selectedIds
  }

  /** Every batch calls an endpoint of the resource its dialog names. */
  lemma EndpointMatchesNoun(kind: BatchKind)
    ensures ResourceName(kind) == "run" <==> ApiOf(kind) in {ArchiveRun, UnarchiveRun, RetryRun, TerminateRun, ApiOp.DeleteRun}
    ensures ResourceName(kind) == "experiment" <==> ApiOf(kind) in {ArchiveExperiment, UnarchiveExperiment}
    ensures ResourceName(kind) == "pipeline" <==> ApiOf(kind) == DeletePipeline
    ensures ResourceName(kind) == "pipeline version" <==> ApiOf(kind) == DeletePipelineVersion
    ensures ResourceName(kind) == "recurring run config" <==> ApiOf(kind) == DeleteJob
  {
  }

  /** Distinct batches call distinct endpoints, and none of them enables or disables a job. */
  lemma EndpointsDistinct(a: BatchKind, b: BatchKind)
    ensures ApiOf(a) == ApiOf(b) ==> a == b
    ensures ApiOf(a) != EnableJob && ApiOf(a) != DisableJob
  {
  }

  /** Retry, terminate, run deletion and recurring-run deletion show the same body
      whatever the size of the selection. */
  lemma FixedBodies(env: Env, kind: BatchKind, n: nat, m: nat)
    requires kind in {RetryRuns, DeleteRecurringRun, TerminateRuns, DeleteRuns}
    ensures Content(env, kind, n) == Content(env, kind, m)
  {
  }

  /** The confirmation dialog: cancel passes `false`, the action button passes
      `true`, closing by the backdrop passes `false`; the title names the current
      resource as "this", and otherwise states the number of selected ids. */
  function ConfirmDialog(env: Env, selectedIds: seq<Id>, content: string, useCurrentResource: bool,
                         actionName: string, resourceName: string): (d: Dialog)
    ensures d.buttons == [DialogButton(env.t("common:cancel"), Some(false)), DialogButton(actionName, Some(true))]
    ensures d.onClose == Some(false)
    ensures d.content == Some(content)
    ensures useCurrentResource ==> d.title == actionName + " this " + resourceName + "?"
    ensures !useCurrentResource ==>
      |actionName + " "| <= |d.title| && LeadingNumber(d.title[|actionName + " "|..]) == |selectedIds|
  {
    var lead := actionName + " ";
    var title :=
      if useCurrentResource then lead + "this" + " " + resourceName + "" + "?"
      else Counted(lead, |selectedIds|, " " + resourceName + env.s(|selectedIds|) + "?");
    Dialog(title, Some(content),
           [DialogButton(env.t("common:cancel"), Some(false)), DialogButton(actionName, Some(true))],
           Some(false))
  }

  /** The dialog a batch button opens for the current selection: the action button
      carries the batch's verb, and the title counts the ids the batch acts on. */
  function BatchDialog(env: Env, kind: BatchKind, selectedIds: seq<Id>, useCurrentResource: bool): (d: Dialog)
    ensures d.buttons == [DialogButton(env.t("common:cancel"), Some(false)), DialogButton(ActionName(env, kind), Some(true))]
    ensures d.content == Some(Content(env, kind, |selectedIds|))
    ensures useCurrentResource ==> d.title == ActionName(env, kind) + " this " + ResourceName(kind) + "?"
    ensures var lead := ActionName(env, kind) + " ";
      !useCurrentResource ==> |lead| <= |d.title| && LeadingNumber(d.title[|lead|..]) == |Targets(kind, selectedIds)|
  {
    ConfirmDialog(env, Targets(kind, selectedIds), Content(env, kind, |selectedIds|), useCurrentResource,
                  ActionName(env, kind), ResourceName(kind))
  }

  /** How a dialog was closed: by its `index`-th button, or by the backdrop. */
  datatype Closing = Pressed(index: nat) | Backdrop

  /** The value a close passes to the close handler, `None` when nothing is called. */
  function ClosingValue(d: Dialog, c: Closing): (v: Option<bool>)
    ensures c.Backdrop? ==> v == d.onClose
    ensures c.Pressed? && c.index < |d.buttons| ==> v == d.buttons[c.index].confirms
    ensures c.Pressed? && c.index >= |d.buttons| ==> v == None
  {
    match c
    case Backdrop => d.onClose
    case Pressed(i) => if i < |d.buttons| then d.buttons[i].confirms else None
  }

  /** Cancel and the backdrop pass the same value, `false`, on every batch
      confirmation; only the action button passes `true`, and a press beyond the
      two buttons calls nothing. */
  lemma CancelIsDismiss(env: Env, kind: BatchKind, selectedIds: seq<Id>, useCurrentResource: bool, i: nat)
    ensures var d := BatchDialog(env, kind, selectedIds, useCurrentResource);
      && ClosingValue(d, Pressed(0)) == ClosingValue(d, Backdrop) == Some(false)
      && ClosingValue(d, Pressed(1)) == Some(true)
      && (i >= 2 ==> ClosingValue(d, Pressed(i)) == None)
  {
  }

  /** Closing a batch's confirmation dialog: only the action button runs the batch,
      on the targets of the action, through the batch's endpoint; cancel and the
      backdrop leave everything untouched. */
  method CloseConfirmation(env: Env, kind: BatchKind, selectedIds: seq<Id>, useCurrentResource: bool,
                           api: Id -> CallResult, closing: Closing)
    returns (endpoint: ApiOp, o: BatchOutcome)
    ensures endpoint == ApiOf(kind)
    ensures closing != Pressed(1) ==> o == Untouched
    ensures closing == Pressed(1) ==>
      && o.calls == Targets(kind, selectedIds)
      && o.failed == Failed(api, o.calls)
      && o.callback == Some(BatchCallback(o.failed, o.failed == []))
      && (o.dialog.Some? <==> o.failed != [])
      && (o.snackbar.Some? <==> |o.failed| < |o.calls|)
  {
    endpoint := ApiOf(kind);
    var d := BatchDialog(env, kind, selectedIds, useCurrentResource);
    var v := ClosingValue(d, closing);
    assert v == if closing == Pressed(1) then Some(true) else if closing.Backdrop? || closing == Pressed(0) then Some(false) else None;
    if v.Some? {
      o := DialogClosed(env, v.value, Targets(kind, selectedIds), ActionName(env, kind), ResourceName(kind),
                        useCurrentResource, api);
    } else {
      o := Untouched;
    }
  }
}
