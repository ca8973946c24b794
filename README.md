# Toolbar actions of the Kubeflow Pipelines UI, in Dafny

This project models `Buttons`, the class behind the toolbars of the pipelines
web front end (`frontend/src/lib/Buttons.ts`). It covers three parts of the class:

- **Action registry.** A page builds its toolbar by chaining builder methods
  (`archive`, `cloneRun`, `delete`, `newRun`, ...). Each builder writes one
  `ButtonKeys` slot of the `_map` dictionary and returns the same registry.
- **Batch actions.** A batch button (archive, restore, retry, terminate, delete)
  opens a confirmation dialog. Confirming issues one API call per selected id.
  The action then reports the result: a success snackbar, a list refresh, a
  failure dialog listing the error messages, and the page's callback with the
  failed ids.
- **Combined delete and navigation.** The combined "delete pipelines and
  pipeline versions" action first deletes the selected pipelines. It then
  deletes the selected versions of pipelines that were not deleted, and reports
  counts, per-group callbacks and a refresh. Alongside it the project covers
  the navigations the toolbar starts (clone, compare, new experiment, new run,
  new pipeline version) and the enable/disable toggle of a recurring run.

The modules follow the class:

- `Common`: ids, call results and dialogs.
- `Text`: counted noun phrases, joining and splitting, lower-casing.
- `Batch`: `_dialogClosed`.
- `Dialogs`: `_dialogActionHandler` and the per-action wrappers.
- `CompoundDelete`: `_dialogDeletePipelinesAndPipelineVersions` and `_deletePipelinesAndPipelineVersions`.
- `Registry`: the `Buttons` class, the toolbar and `_setRecurringRunEnabledState`.
- `Navigation`: the `history.push` helpers.

The collaborators of the class are parameters:

- `Env.t` is the translation lookup.
- `Env.s` is the plural suffix.
- `Env.body` is the confirmation text an action composes from translated fragments.
- An oracle `Id -> CallResult` tells whether each REST call resolves or is
  rejected. A rejected call carries the text `errorToMessage` produced.

`Promise.all` over the selected ids is modelled as a loop in selection order. A
lemma shows that the order does not change the failed ids or the success count.
JavaScript objects keyed by pipeline id are sequences of entries in key order
(`Groups`).

## Model

| member | source | states |
|---|---|---|
| Text.Nouns | frontend/src/lib/Buttons.ts:887-895 | empty exactly when the count is not positive; otherwise the phrase starts with the count; it is "1 " + singular for one, and for more it is the count in decimal, a space and the plural noun |
| Text.Conjoin | frontend/src/lib/Buttons.ts:743 | the separator appears only when both phrases are non-empty; otherwise the result is the non-empty phrase |
| Text.DeletionPhrase | frontend/src/lib/Buttons.ts:846-857 | empty exactly when neither count is positive; with both counts positive it is the two counted phrases around the separator, and otherwise the one counted phrase |
| Text.DeletionPhraseThenText | frontend/src/lib/Buttons.ts:858-864 | followed by any text, the phrase states the pipeline count when it is positive, and otherwise the version count |
| Text.NounsThenText | frontend/src/lib/Buttons.ts:891-893 | text after a counted phrase does not change the count it states |
| Text.JoinContainsAll | frontend/src/lib/Buttons.ts:634 | every message occurs in the messages joined by blank lines |
| Batch.Failed | frontend/src/lib/Buttons.ts:598-617 | the failed ids are no more than the selected ids, and each is a selected id whose call was rejected |
| Batch.FailedMembership | frontend/src/lib/Buttons.ts:602-605 | an id is reported failed exactly when it was selected and its call was rejected |
| Batch.FailedMultiplicity | frontend/src/lib/Buttons.ts:600-605 | each id is reported failed as many times as it was selected when its call is rejected, and never otherwise |
| Batch.FailedOrderIrrelevant | frontend/src/lib/Buttons.ts:600-618 | issuing or settling the calls in another order gives the same failed ids and the same number of successes |
| Batch.AllSucceeded | frontend/src/lib/Buttons.ts:641 | the callback's success flag (no failed id) holds exactly when every selected call resolved |
| Batch.FailureMessage | frontend/src/lib/Buttons.ts:607-613 | the message names the failed id and its error text |
| Batch.MessagesFollowFailures | frontend/src/lib/Buttons.ts:604-613 | one message per failed id, built from that id and its error; in the model's sequential order the k-th message belongs to the k-th failed id |
| Batch.Messages | frontend/src/lib/Buttons.ts:599-613 | at most one message per selected id, and each message names a selected id |
| Batch.Execute | frontend/src/lib/Buttons.ts:598-616 | every selected id is called once, in order; the failed ids and messages are those of the specification functions |
| Batch.SuccessMessage | frontend/src/lib/Buttons.ts:620-623 | names the current resource as "this", and otherwise states the number of successful calls |
| Batch.FailureDialog | frontend/src/lib/Buttons.ts:631-638 | one dismiss button; the body is the messages joined by blank lines and contains each of them; the title names the current resource, or otherwise states the number of failed ids |
| Batch.DialogClosed | frontend/src/lib/Buttons.ts:588-643 | unconfirmed: nothing happens; confirmed: every id is called, snackbar iff some call succeeded, refresh iff some call succeeded and not in current-resource mode, failure dialog iff some id failed, callback once with the failed ids and success iff none failed |
| Batch.DeleteRunScenario | frontend/src/lib/Buttons.ts:598-618 | two runs, the second rejected: one failure, one success, one message naming the run and the error |
| Dialogs.Targets | frontend/src/lib/Buttons.ts:501-515 | the targets are a prefix of the selection: all of it for every batch except recurring-run deletion, which acts on exactly one id (the first) when anything is selected |
| Dialogs.EndpointMatchesNoun | frontend/src/lib/Buttons.ts:385-547 | every batch calls an endpoint of the resource its dialog names: run endpoints exactly for "run", experiment endpoints exactly for "experiment", and likewise for pipelines, versions and recurring run configs |
| Dialogs.EndpointsDistinct | frontend/src/lib/Buttons.ts:385-547 | distinct batches call distinct endpoints, and no batch enables or disables a job |
| Dialogs.FixedBodies | frontend/src/lib/Buttons.ts:385-547 | retry, terminate, run deletion and recurring-run deletion show the same body whatever the size of the selection |
| Dialogs.BatchDialog | frontend/src/lib/Buttons.ts:549-586 | cancel passes false and the action button, labelled with the batch's verb, passes true; the body is the batch's text; the title says "this" for the current resource and otherwise counts the ids the batch acts on |
| Dialogs.ConfirmDialog | frontend/src/lib/Buttons.ts:569-585 | cancel and the backdrop pass false and the action button passes true; the title says "this" for the current resource and otherwise states the number of selected ids |
| Dialogs.CancelIsDismiss | frontend/src/lib/Buttons.ts:569-581 | on every batch confirmation, cancel and the backdrop pass the same value, false; only the action button passes true; a press beyond the two buttons calls nothing |
| Dialogs.CloseConfirmation | frontend/src/lib/Buttons.ts:549-586 | only the action button runs the batch, through the action's endpoint, on its targets; cancel and the backdrop change nothing |
| CompoundDelete.DeepCountIsFlattenLength | frontend/src/lib/Buttons.ts:897-899 | the deep count is the number of ids over all groups |
| CompoundDelete.FlattenMembership | frontend/src/lib/Buttons.ts:821-841 | a version is attempted exactly when some pending group lists it |
| CompoundDelete.Without | frontend/src/lib/Buttons.ts:813-818 | keeps exactly the groups whose pipeline was not deleted, in order; it never increases the deep count and keeps keys distinct |
| CompoundDelete.WithoutAppend | frontend/src/lib/Buttons.ts:813-818 | the filter distributes over concatenation, so the surviving groups keep their order |
| CompoundDelete.WithoutOne | frontend/src/lib/Buttons.ts:813-818 | a single group is kept exactly when its pipeline was not deleted |
| CompoundDelete.LookupWithout | frontend/src/lib/Buttons.ts:813-818 | after the filter, a deleted pipeline's key reads as undefined and every other key reads as before |
| CompoundDelete.SettledFailures | frontend/src/lib/Buttons.ts:821-841 | once all version calls settle, the failed-version record never counts more than was selected |
| CompoundDelete.UnsettledFailures | frontend/src/lib/Buttons.ts:826-829 | as written, the record is read before any call settles: every entry is empty and the count is zero |
| CompoundDelete.SettledFailuresCount | frontend/src/lib/Buttons.ts:843 | the settled record counts exactly the rejected version calls |
| CompoundDelete.LookupSettled | frontend/src/lib/Buttons.ts:828-832 | a group's entry lists its rejected versions; a group with no versions, or not attempted, has no entry |
| CompoundDelete.DeletedIsSelectedMinusFailed | frontend/src/lib/Buttons.ts:793-802 | the surviving pipeline set is the selected ids minus the failed ids |
| CompoundDelete.RemainingStep | frontend/src/lib/Buttons.ts:801-802 | recording one more failure removes exactly that id from the set |
| CompoundDelete.DeletePipelines | frontend/src/lib/Buttons.ts:793-811 | every selected pipeline is called once; failed ids, the deleted set and the messages are those of the specification functions |
| CompoundDelete.DeleteVersions | frontend/src/lib/Buttons.ts:821-841 | with every call awaited: each pending version is called once, group by group; the failures are recorded per group with one message each |
| CompoundDelete.DeleteVersionsUnawaited | frontend/src/lib/Buttons.ts:821-841 | as written: the same calls are issued, but only empty entries are recorded before the results are read |
| CompoundDelete.DeletionSnackbar | frontend/src/lib/Buttons.ts:846-867 | for the numbers of deleted pipelines and versions: shown exactly when either is positive; the text is the success lead followed by the deletion phrase, which states the pipeline count when there is one and otherwise the version count |
| CompoundDelete.DeletionFailureDialog | frontend/src/lib/Buttons.ts:868-874 | opened exactly when a pipeline or a version failed; one dismiss button; the body is every message joined by blank lines |
| CompoundDelete.DeletionCallbacks | frontend/src/lib/Buttons.ts:878-881 | first the failed pipelines with no pipeline id, then one call per selected key, in key order, with that key's failed-version entry or undefined |
| CompoundDelete.Reporting | frontend/src/lib/Buttons.ts:846-884 | a snackbar exactly when a pipeline was deleted or fewer versions failed than were selected; a failure dialog exactly when something failed; the pipeline callback first, then one per selected group; the list is always refreshed |
| CompoundDelete.DeletionTitle | frontend/src/lib/Buttons.ts:774-775 | the combined title states the pipeline count when there are pipelines, and otherwise the version count; with neither it is just the verb and "?" |
| CompoundDelete.DeletionTitleNamesBoth | frontend/src/lib/Buttons.ts:732-743 | with both pipelines and versions selected, the title names both, joined by "and" |
| CompoundDelete.DeletionConfirmDialog | frontend/src/lib/Buttons.ts:727-777 | cancel and the backdrop pass false and delete passes true; there is no body; the title states the counts as above |
| CompoundDelete.DeletionCancelIsDismiss | frontend/src/lib/Buttons.ts:744-773 | on the combined confirmation, cancel and the backdrop pass the same value, false; only delete passes true; a press beyond the two buttons calls nothing |
| CompoundDelete.DeletePipelinesAndPipelineVersions | frontend/src/lib/Buttons.ts:779-885 | unconfirmed: nothing happens; confirmed: every pipeline is called, only groups of pipelines that were not deleted are attempted, every failure is reported, and the report is built from the settled results with a refresh |
| CompoundDelete.DeletePipelinesAndPipelineVersionsAsWritten | frontend/src/lib/Buttons.ts:779-885 | the same, with the version results read before any version call settles: no version failure and no version message is reported |
| CompoundDelete.CloseDeletionConfirmation | frontend/src/lib/Buttons.ts:744-773 | only the delete button runs the two phases; cancel and the backdrop change nothing; once run, one callback per selected group plus one, and a refresh |
| CompoundDelete.GroupCallbackValue | frontend/src/lib/Buttons.ts:879-881 | a group's callback receives its rejected versions when it was attempted with versions, and undefined when its pipeline was deleted or it had no version |
| CompoundDelete.VersionCountsAddUp | frontend/src/lib/Buttons.ts:842-855 | failed versions ≤ attempted versions ≤ selected versions, so the reported number of deleted versions is never negative |
| CompoundDelete.PipelineAndVersionScenario | frontend/src/lib/Buttons.ts:793-884 | p1 deleted, p2 rejected: v1 under p1 is never attempted, the pipeline callback gets [p2], p1's callback gets undefined, and the list is refreshed |
| CompoundDelete.UnawaitedVersionFailureGoesUnreported | frontend/src/lib/Buttons.ts:821-874 | one rejected version: as written, a success is reported and no failure dialog opens; once settled, no success is reported and the dialog opens |
| Registry.SelectionDriven | frontend/src/lib/Buttons.ts:78-79 | disabled exactly when not acting on the current resource; the hint is present exactly when disabled |
| Registry.StartsDisabled | frontend/src/lib/Buttons.ts:142-143 | the button starts disabled, with its hint |
| Registry.AlwaysEnabled | frontend/src/lib/Buttons.ts:128-137 | no disabled flag and no hint |
| Registry.ArchiveKind | frontend/src/lib/Buttons.ts:67-85 | the dialog an archive or restore button opens names the button's resource, and restoring calls an unarchive endpoint |
| Registry.DeleteKind | frontend/src/lib/Buttons.ts:154-178 | the dialog the delete button opens is a deletion that names the button's resource |
| Registry.ConfirmVerbIsTitle | frontend/src/lib/Buttons.ts:385-547 | the verb of the archive, restore and delete confirmations is the title of the button that opens them |
| Registry.Buttons.constructor | frontend/src/lib/Buttons.ts:56-61 | starts from the caller's map, or an empty one |
| Registry.Buttons.Archive | frontend/src/lib/Buttons.ts:67-85 | writes the archive slot only, and returns the same registry |
| Registry.Buttons.CloneRun | frontend/src/lib/Buttons.ts:87-98 | writes the clone-run slot only, and returns the same registry |
| Registry.Buttons.CloneRecurringRun | frontend/src/lib/Buttons.ts:100-110 | writes the clone-recurring-run slot only, and returns the same registry |
| Registry.Buttons.RetryRun | frontend/src/lib/Buttons.ts:112-126 | writes the retry slot only, and returns the same registry |
| Registry.Buttons.CollapseSections | frontend/src/lib/Buttons.ts:128-137 | writes the collapse slot only, and returns the same registry |
| Registry.Buttons.CompareRuns | frontend/src/lib/Buttons.ts:139-150 | writes the compare slot only, disabled until the page enables it |
| Registry.Buttons.DeleteHint | frontend/src/lib/Buttons.ts:170-172 | the hint names the resource |
| Registry.Buttons.Delete | frontend/src/lib/Buttons.ts:154-178 | writes the delete slot only, with the resource's batch, and returns the same registry |
| Registry.Buttons.DeletePipelinesAndPipelineVersions | frontend/src/lib/Buttons.ts:181-202 | writes the delete slot only, with the combined deletion, and returns the same registry |
| Registry.Buttons.DisableRecurringRun | frontend/src/lib/Buttons.ts:204-214 | writes the disable slot only, starting disabled |
| Registry.Buttons.EnableRecurringRun | frontend/src/lib/Buttons.ts:216-226 | writes the enable slot only, starting disabled |
| Registry.Buttons.ExpandSections | frontend/src/lib/Buttons.ts:228-237 | writes the expand slot only |
| Registry.Buttons.NewExperiment | frontend/src/lib/Buttons.ts:239-250 | writes the new-experiment slot only; the pipeline id comes from the getter when one is given |
| Registry.Buttons.NewRun | frontend/src/lib/Buttons.ts:252-264 | writes the new-run slot only; the experiment id comes from the getter when one is given |
| Registry.Buttons.NewRunFromPipelineVersion | frontend/src/lib/Buttons.ts:266-281 | writes the new-run-from-pipeline-version slot only |
| Registry.Buttons.NewRecurringRun | frontend/src/lib/Buttons.ts:283-294 | writes the new-recurring-run slot only, with the experiment id fixed at build time |
| Registry.Buttons.NewPipelineVersion | frontend/src/lib/Buttons.ts:296-307 | writes the new-pipeline-version slot only, titled with the caller's label |
| Registry.Buttons.Refresh | frontend/src/lib/Buttons.ts:309-317 | writes the refresh slot only |
| Registry.Buttons.Restore | frontend/src/lib/Buttons.ts:319-337 | writes the restore slot only, with the resource's restore batch |
| Registry.Buttons.TerminateRun | frontend/src/lib/Buttons.ts:339-353 | writes the terminate slot only |
| Registry.Buttons.Upload | frontend/src/lib/Buttons.ts:355-366 | writes the upload slot only |
| Registry.DeleteThenCombinedDelete | frontend/src/lib/Buttons.ts:154-202 | delete and the combined delete share one slot; the later call wins, and the chain returns the same registry |
| Registry.ToggleFailureDialog | frontend/src/lib/Buttons.ts:704-710 | the dialog carries the error text; its single dismiss button, like its backdrop, closes it without calling anything |
| Registry.SetRecurringRunEnabledState | frontend/src/lib/Buttons.ts:688-716 | empty id: nothing changes; a missing button: nothing changes before the handler fails; otherwise the button is published busy, the job is enabled or disabled, then refresh on success or a failure dialog on rejection, and the button is published idle again |
| Navigation.CloneRun | frontend/src/lib/Buttons.ts:368-383 | navigates exactly when one id is selected, cloning from that run or recurring run |
| Navigation.CompareRuns | frontend/src/lib/Buttons.ts:644-651 | navigates exactly when more than one and at most ten runs are selected, listing them separated by commas |
| Navigation.CompareRunsRoundTrip | frontend/src/lib/Buttons.ts:647 | splitting the run list at commas gives back the selected runs, when no id contains a comma |
| Navigation.CreateNewExperiment | frontend/src/lib/Buttons.ts:653-660 | carries the pipeline id exactly when one is given |
| Navigation.CreateNewRun | frontend/src/lib/Buttons.ts:662-670 | always carries an experiment id (empty when none is given), and is marked recurring exactly when asked |
| Navigation.CreateNewRunFromPipelineVersion | frontend/src/lib/Buttons.ts:672-686 | carries the originating run when the URL names one, and otherwise the pipeline and version ids |
| Navigation.CreateNewPipelineVersion | frontend/src/lib/Buttons.ts:718-725 | carries the pipeline id exactly when one is given |

## Left out

- Translation (`i18n.t`), the plural suffix `s`, `errorToMessage` and the
  composed dialog bodies are taken as given functions. Their texts are not
  modelled.
- Text.Lower: lower-cases ASCII letters only. `toLowerCase` also maps other
  Unicode letters.
- Batch.FailureDialog: the title passes the failed count to `s`, where the
  source passes the list of failed ids.
- Batch.MessagesFollowFailures: the order it states is the model's order. The
  source pushes a failed id, then awaits `errorToMessage`, and only then pushes
  the message. A slow conversion can therefore put the messages in a different
  order from the failed ids.
- `Promise.all`, `async`/`await` and the event loop are not modelled. The calls
  run in selection order, and the messages are collected in that order. In the
  source the messages follow the order in which the rejections settle, and the
  ids are pushed in the order the rejections arrive.
- CompoundDelete.DeletePipelinesAndPipelineVersionsAsWritten: assumes that no
  version call settles before the report is read. The real interleaving of the
  unawaited calls with the reporting is not modelled.
- CompoundDelete.UnawaitedVersionFailureGoesUnreported: the callback receives
  the live failed-version array of each group. A rejection that settles later
  still pushes into it. The model gives the array's contents when the callback
  is called, and does not model later changes seen through that reference.
- CompoundDelete.CloseDeletionConfirmation: the delete button runs the version
  phase with every call awaited (the corrected behaviour below), not the code as
  written. Its contract states only what both behaviours share: the pipeline
  calls, the deleted set, the version calls, one callback per group plus one, and
  the refresh.
- `getToolbarActionMap` returns the `_map` object itself. The model reads the
  `actions` field instead, and does not model later changes made through that
  shared reference.
- Registry.SetRecurringRunEnabledState: `updateToolbar` receives the same
  mutated object twice. The model records the two states as separate values.
- Dialogs.Targets: with an empty selection, recurring-run deletion gives no
  target. The source passes a single `undefined` id.
- URL building (`URLParser.build`/`get`), route constants and query-parameter
  names are not modelled. A navigation is the page plus the list of parameters.
- Icons, ids, styles and the `outlined`/`primary` presentation fields of a
  descriptor are left out.
- The handlers a descriptor carries are the `Action` value they start. The
  getter callbacks a page passes are modelled as "given" or "not given".
- JavaScript objects are entry lists in `Object.keys` order. Keys that look
  like integers, which JavaScript enumerates first, are not treated specially.
- The skipped group of a deleted pipeline gets `undefined` in its callback,
  because no entry was created for it. The model follows the code here. It
  does not pass an empty list.

## Findings

| source | as written | input that shows it | evidently intended | confidence | as-written member | corrected member |
|---|---|---|---|---|---|---|
| frontend/src/lib/Buttons.ts:822-843 | the outer `map` over the pending groups does not return the inner promises, so `Promise.all` does not wait for the version deletions; the failure count and messages are read before any version deletion settles | no pipeline selected, one version `v` under `p`, and deleting `v` is rejected: the snackbar reports one deleted version, no failure dialog opens, and `p`'s callback gets the group's array while it is still empty (`v` is pushed into it later, once its rejection settles) | every version deletion is awaited before the report: no success is reported, the failure dialog lists `v`, and `p`'s callback gets `[v]` | not executed | CompoundDelete.UnawaitedVersionFailureGoesUnreported | CompoundDelete.DeletePipelinesAndPipelineVersions |
