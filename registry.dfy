/** The action registry of the toolbar (`class Buttons`): a map from button keys
    to button descriptors that each builder method overwrites at exactly one key
    before handing back the same registry, and the busy flag that enabling or
    disabling a recurring run raises and lowers on the page's toolbar. */
module Registry {
  import opened Common
  import opened Text
  import opened Dialogs

  /** `ButtonKeys`: the slots of the toolbar. */
  datatype ButtonKey =
    | Archive | CloneRun | CloneRecurringRun | Retry | Collapse | Compare | DeleteRun
    | DisableRecurringRun | EnableRecurringRun | Expand | NewExperiment | NewPipelineVersion
    | NewRun | NewRecurringRun | NewRunFromPipelineVersion | Refresh | Restore | TerminateRun
    | UploadPipeline

  /** The resource a builder is told about. */
  datatype Resource = Run | Experiment | Pipeline | PipelineVersion | RecurringRunConfig {
    /** The noun the source passes as `resourceName`. */
    function Name(): string {
      match this
      case Run => "run"
      case Experiment => "experiment"
      case Pipeline => "pipeline"
      case PipelineVersion => "pipeline version"
      case RecurringRunConfig => "recurring run config"
    }
  }

  /** Where an id handed to a navigation comes from: not given (an optional getter
      that was left out, or a literal empty string), the page's getter, or a
      value fixed when the button was built. */
  datatype IdSource = NotGiven | FromGetter | Given(id: string)

  /** What clicking the button starts. */
  datatype Action =
    | Custom                                            // the page's own handler
    | Confirm(kind: BatchKind, useCurrentResource: bool) // a confirmation dialog for a batch
    | ConfirmPipelinesAndVersions                       // the combined deletion dialog
    | Clone(isRecurring: bool)
    | CompareSelected
    | SetEnabled(enabled: bool)
    | CreateExperiment(pipelineId: IdSource)
    | CreateRun(isRecurring: bool, experimentId: IdSource)
    | CreateRunFromPipelineVersion
    | CreatePipelineVersion(pipelineId: IdSource)

  /** A toolbar action descriptor, without its presentation fields (id, icon,
      style, outlined, primary); an absent optional field is `None`. */
  datatype Descriptor = Descriptor(
    action: Action,
    disabled: Option<bool>,
    disabledTitle: Option<string>,
    title: string,
    tooltip: string,
    busy: Option<bool>)

  /** A descriptor explains itself exactly when it is disabled. */
  predicate Consistent(d: Descriptor) {
    d.disabledTitle.Some? <==> d.disabled == Some(true)
  }

  /** A button that needs a selection: disabled exactly when it does not act on
      the page's current resource, and then carrying the hint. */
  function SelectionDriven(action: Action, useCurrentResource: bool, hint: string, title: string, tooltip: string)
    : (d: Descriptor)
    ensures d.action == action && d.title == title && d.tooltip == tooltip && d.busy == None
    ensures d.disabled == Some(!useCurrentResource)
    ensures d.disabledTitle == None <==> useCurrentResource
    ensures d.disabledTitle.Some? ==> d.disabledTitle.value == hint
    ensures Consistent(d)
  {
    Descriptor(action, Some(!useCurrentResource), if useCurrentResource then None else Some(hint), title, tooltip, None)
  }

  /** A button that starts disabled, with a hint, until the page enables it. */
  function StartsDisabled(action: Action, hint: string, title: string, tooltip: string): (d: Descriptor)
    ensures d.action == action && d.title == title && d.tooltip == tooltip && d.busy == None
    ensures d.disabled == Some(true) && d.disabledTitle == Some(hint)
    ensures Consistent(d)
  {
    Descriptor(action, Some(true), Some(hint), title, tooltip, None)
  }

  /** A button that is always usable: no disabled flag and no hint. */
  function AlwaysEnabled(action: Action, title: string, tooltip: string): (d: Descriptor)
    ensures d.action == action && d.title == title && d.tooltip == tooltip && d.busy == None
    ensures d.disabled == None && d.disabledTitle == None
    ensures Consistent(d)
  {
    Descriptor(action, None, None, title, tooltip, None)
  }

  /** The batch an archive or restore button confirms for the given resource: its
      dialog names that resource, and restoring calls an unarchive endpoint. */
  function ArchiveKind(resource: Resource, restore: bool): (k: BatchKind)
    requires resource == Run || resource == Experiment
    ensures k in {ArchiveRuns, ArchiveExperiments, RestoreRuns, RestoreExperiments}
    ensures ResourceName(k) == resource.Name()
    ensures ApiOf(k) in {UnarchiveRun, UnarchiveExperiment} <==> restore
  {
    if resource == Run then (if restore then RestoreRuns else ArchiveRuns)
    else (if restore then RestoreExperiments else ArchiveExperiments)
  }

  /** The batch the single-resource delete button confirms for the given resource:
      a deletion whose dialog names that resource. */
  function DeleteKind(resource: Resource): (k: BatchKind)
    requires resource != Experiment
    ensures k in {DeletePipelines, DeletePipelineVersions, DeleteRuns, DeleteRecurringRun}
    ensures ResourceName(k) == resource.Name()
  {
    match resource
    case Pipeline => DeletePipelines
    case PipelineVersion => DeletePipelineVersions
    case Run => DeleteRuns
    case _ => DeleteRecurringRun
  }

  /** The verb of the confirmation dialog is the title of the button that opens it
      (archive, restore, delete), for the same translation lookup. */
  lemma ConfirmVerbIsTitle(env: Env, resource: Resource, restore: bool)
    ensures resource == Run || resource == Experiment ==>
      ActionName(env, ArchiveKind(resource, restore)) == env.t(if restore then "common:restore" else "common:archive")
    ensures resource != Experiment ==> ActionName(env, DeleteKind(resource)) == env.t("common:delete")
  {
  }

  /** The toolbar action registry. */
  class Buttons {
    /** `_map`: the descriptors registered so far. */
    var actions: map<ButtonKey, Descriptor>
    /** The translation lookup. */
    const t: string -> string

    /** Starts from the caller's map, or from an empty one. */
    constructor(t: string -> string, initial: Option<map<ButtonKey, Descriptor>>)
      ensures this.t == t
      ensures actions == initial.GetOr(map[])
    {
      this.t := t;
      actions := initial.GetOr(map[]);
    }

    method Archive(resource: Resource, useCurrentResource: bool) returns (self: Buttons)
      requires resource == Run || resource == Experiment
      modifies this
      ensures self == this
      ensures actions == old(actions)[ButtonKey.Archive := SelectionDriven(
        Confirm(ArchiveKind(resource, false), useCurrentResource), useCurrentResource,
        t("common:selectResourceArchive"), t("common:archive"), t("common:archive"))]
    {
      actions := actions[ButtonKey.Archive := SelectionDriven(
        Confirm(ArchiveKind(resource, false), useCurrentResource), useCurrentResource,
        t("common:selectResourceArchive"), t("common:archive"), t("common:archive"))];
      self := this;
    }

    method CloneRun(useCurrentResource: bool) returns (self: Buttons)
      modifies this
      ensures self == this
      ensures actions == old(actions)[ButtonKey.CloneRun := SelectionDriven(
        Clone(false), useCurrentResource, t("common:selectRunClone"), t("common:cloneRun"), t("common:copyRunInitialState"))]
    {
      actions := actions[ButtonKey.CloneRun := SelectionDriven(
        Clone(false), useCurrentResource, t("common:selectRunClone"), t("common:cloneRun"), t("common:copyRunInitialState"))];
      self := this;
    }

    method CloneRecurringRun(useCurrentResource: bool) returns (self: Buttons)
      modifies this
      ensures self == this
      ensures actions == old(actions)[ButtonKey.CloneRecurringRun := SelectionDriven(
        Clone(true), useCurrentResource, t("common:selectRecurRunClone"), t("common:cloneRecurRun"), t("common:copyRunInitialState"))]
    {
      actions := actions[ButtonKey.CloneRecurringRun := SelectionDriven(
        Clone(true), useCurrentResource, t("common:selectRecurRunClone"), t("common:cloneRecurRun"), t("common:copyRunInitialState"))];
      self := this;
    }

    method RetryRun(useCurrentResource: bool) returns (self: Buttons)
      modifies this
      ensures self == this
      ensures actions == old(actions)[ButtonKey.Retry := SelectionDriven(
        Confirm(RetryRuns, useCurrentResource), useCurrentResource,
        t("common:selectResourceRetry"), t("common:retry"), t("common:retry"))]
    {
      actions := actions[ButtonKey.Retry := SelectionDriven(
        Confirm(RetryRuns, useCurrentResource), useCurrentResource,
        t("common:selectResourceRetry"), t("common:retry"), t("common:retry"))];
      self := this;
    }

    method CollapseSections() returns (self: Buttons)
      modifies this
      ensures self == this
      ensures actions == old(actions)[ButtonKey.Collapse := AlwaysEnabled(Custom, t("common:collapseAll"), t("common:collapseAllSec"))]
    {
      actions := actions[ButtonKey.Collapse := AlwaysEnabled(Custom, t("common:collapseAll"), t("common:collapseAllSec"))];
      self := this;
    }

    method CompareRuns() returns (self: Buttons)
      modifies this
      ensures self == this
      ensures actions == old(actions)[ButtonKey.Compare := StartsDisabled(
        CompareSelected, t("common:selectRunsCompare"), t("common:compareRuns"), t("common:compareUpToTenRuns"))]
    {
      actions := actions[ButtonKey.Compare := StartsDisabled(
        CompareSelected, t("common:selectRunsCompare"), t("common:compareRuns"), t("common:compareUpToTenRuns"))];
      self := this;
    }

    /** The hint of the single-resource delete button. */
    function DeleteHint(resource: Resource): (h: string)
      ensures Contains(h, resource.Name())
    {
      ContainsMiddle(t("common:selectOne") + " ", resource.Name(), " " + t("common:toDelete"));
      assert t("common:selectOne") + " " + resource.Name() + " " + t("common:toDelete")
          == (t("common:selectOne") + " ") + resource.Name() + (" " + t("common:toDelete"));
      t("common:selectOne") + " " + resource.Name() + " " + t("common:toDelete")
    }

    method Delete(resource: Resource, useCurrentResource: bool) returns (self: Buttons)
      requires resource != Experiment
      modifies this
      ensures self == this
      ensures actions == old(actions)[ButtonKey.DeleteRun := SelectionDriven(
        Confirm(DeleteKind(resource), useCurrentResource), useCurrentResource,
        DeleteHint(resource), t("common:delete"), t("common:delete"))]
    {
      actions := actions[ButtonKey.DeleteRun := SelectionDriven(
        Confirm(DeleteKind(resource), useCurrentResource), useCurrentResource,
        DeleteHint(resource), t("common:delete"), t("common:delete"))];
      self := this;
    }

    method DeletePipelinesAndPipelineVersions(useCurrentResource: bool) returns (self: Buttons)
      modifies this
      ensures self == this
      ensures actions == old(actions)[ButtonKey.DeleteRun := SelectionDriven(
        ConfirmPipelinesAndVersions, useCurrentResource,
        t("common:selectPipelineDelete"), t("common:delete"), t("common:delete"))]
    {
      actions := actions[ButtonKey.DeleteRun := SelectionDriven(
        ConfirmPipelinesAndVersions, useCurrentResource,
        t("common:selectPipelineDelete"), t("common:delete"), t("common:delete"))];
      self := this;
    }

    method DisableRecurringRun() returns (self: Buttons)
      modifies this
      ensures self == this
      ensures actions == old(actions)[ButtonKey.DisableRecurringRun := StartsDisabled(
        SetEnabled(false), t("common:runSchedDisabled"), t("common:disable"), t("common:disableRunsTrigger"))]
    {
      actions := actions[ButtonKey.DisableRecurringRun := StartsDisabled(
        SetEnabled(false), t("common:runSchedDisabled"), t("common:disable"), t("common:disableRunsTrigger"))];
      self := this;
    }

    method EnableRecurringRun() returns (self: Buttons)
      modifies this
      ensures self == this
      ensures actions == old(actions)[ButtonKey.EnableRecurringRun := StartsDisabled(
        SetEnabled(true), t("common:runSchedEnabled"), t("common:enable"), t("common:enableRunsTrigger"))]
    {
      actions := actions[ButtonKey.EnableRecurringRun := StartsDisabled(
        SetEnabled(true), t("common:runSchedEnabled"), t("common:enable"), t("common:enableRunsTrigger"))];
      self := this;
    }

    method ExpandSections() returns (self: Buttons)
      modifies this
      ensures self == this
      ensures actions == old(actions)[ButtonKey.Expand := AlwaysEnabled(Custom, t("common:expandAll"), t("common:expandAllSections"))]
    {
      actions := actions[ButtonKey.Expand := AlwaysEnabled(Custom, t("common:expandAll"), t("common:expandAllSections"))];
      self := this;
    }

    /** `hasGetter` tells whether the optional pipeline-id getter was passed. */
    method NewExperiment(hasGetter: bool) returns (self: Buttons)
      modifies this
      ensures self == this
      ensures actions == old(actions)[ButtonKey.NewExperiment := AlwaysEnabled(
        CreateExperiment(if hasGetter then FromGetter else NotGiven), t("common:createExperiment"), t("common:createNewExperiment"))]
    {
      actions := actions[ButtonKey.NewExperiment := AlwaysEnabled(
        CreateExperiment(if hasGetter then FromGetter else NotGiven), t("common:createExperiment"), t("common:createNewExperiment"))];
      self := this;
    }

    /** `hasGetter` tells whether the optional experiment-id getter was passed. */
    method NewRun(hasGetter: bool) returns (self: Buttons)
      modifies this
      ensures self == this
      ensures actions == old(actions)[ButtonKey.NewRun := AlwaysEnabled(
        CreateRun(false, if hasGetter then FromGetter else NotGiven), t("common:createRun"), t("common:createNewRun"))]
    {
      actions := actions[ButtonKey.NewRun := AlwaysEnabled(
        CreateRun(false, if hasGetter then FromGetter else NotGiven), t("common:createRun"), t("common:createNewRun"))];
      self := this;
    }

    method NewRunFromPipelineVersion() returns (self: Buttons)
      modifies this
      ensures self == this
      ensures actions == old(actions)[ButtonKey.NewRunFromPipelineVersion := AlwaysEnabled(
        CreateRunFromPipelineVersion, t("common:createRun"), t("common:createNewRun"))]
    {
      actions := actions[ButtonKey.NewRunFromPipelineVersion := AlwaysEnabled(
        CreateRunFromPipelineVersion, t("common:createRun"), t("common:createNewRun"))];
      self := this;
    }

    method NewRecurringRun(experimentId: string) returns (self: Buttons)
      modifies this
      ensures self == this
      ensures actions == old(actions)[ButtonKey.NewRecurringRun := AlwaysEnabled(
        CreateRun(true, Given(experimentId)), t("common:createRecurRun"), t("common:createNewRecurRun"))]
    {
      actions := actions[ButtonKey.NewRecurringRun := AlwaysEnabled(
        CreateRun(true, Given(experimentId)), t("common:createRecurRun"), t("common:createNewRecurRun"))];
      self := this;
    }

    /** The title is the label the caller passes, not a translated text. */
    method NewPipelineVersion(title: string, hasGetter: bool) returns (self: Buttons)
      modifies this
      ensures self == this
      ensures actions == old(actions)[ButtonKey.NewPipelineVersion := AlwaysEnabled(
        CreatePipelineVersion(if hasGetter then FromGetter else NotGiven), title, t("common:uploadPipelineVersion"))]
    {
      actions := actions[ButtonKey.NewPipelineVersion := AlwaysEnabled(
        CreatePipelineVersion(if hasGetter then FromGetter else NotGiven), title, t("common:uploadPipelineVersion"))];
      self := this;
    }

    method Refresh() returns (self: Buttons)
      modifies this
      ensures self == this
      ensures actions == old(actions)[ButtonKey.Refresh := AlwaysEnabled(Custom, t("common:refresh"), t("common:refreshList"))]
    {
      actions := actions[ButtonKey.Refresh := AlwaysEnabled(Custom, t("common:refresh"), t("common:refreshList"))];
      self := this;
    }

    method Restore(resource: Resource, useCurrentResource: bool) returns (self: Buttons)
      requires resource == Run || resource == Experiment
      modifies this
      ensures self == this
      ensures actions == old(actions)[ButtonKey.Restore := SelectionDriven(
        Confirm(ArchiveKind(resource, true), useCurrentResource), useCurrentResource,
        t("common:selectResourceRestore"), t("common:restore"), t("common:restore"))]
    {
      actions := actions[ButtonKey.Restore := SelectionDriven(
        Confirm(ArchiveKind(resource, true), useCurrentResource), useCurrentResource,
        t("common:selectResourceRestore"), t("common:restore"), t("common:restore"))];
      self := this;
    }

    method TerminateRun(useCurrentResource: bool) returns (self: Buttons)
      modifies this
      ensures self == this
      ensures actions == old(actions)[ButtonKey.TerminateRun := SelectionDriven(
        Confirm(TerminateRuns, useCurrentResource), useCurrentResource,
        t("common:selectRunTerminate"), t("common:terminate"), t("common:terminateRun"))]
    {
      actions := actions[ButtonKey.TerminateRun := SelectionDriven(
        Confirm(TerminateRuns, useCurrentResource), useCurrentResource,
        t("common:selectRunTerminate"), t("common:terminate"), t("common:terminateRun"))];
      self := this;
    }

    method Upload() returns (self: Buttons)
      modifies this
      ensures self == this
      ensures actions == old(actions)[ButtonKey.UploadPipeline := AlwaysEnabled(
        Custom, t("common:uploadPipeline"), t("common:uploadPipeline"))]
    {
      actions := actions[ButtonKey.UploadPipeline := AlwaysEnabled(
        Custom, t("common:uploadPipeline"), t("common:uploadPipeline"))];
      self := this;
    }
  }

  /** The two delete builders share one slot: a page that calls both keeps only the
      later one, and the chain returns the same registry each time. */
  method DeleteThenCombinedDelete(b: Buttons, resource: Resource, useCurrentResource: bool)
    returns (self: Buttons)
    requires resource != Experiment
    modifies b
    ensures self == b
    ensures b.actions == old(b.actions)[ButtonKey.DeleteRun := SelectionDriven(
      ConfirmPipelinesAndVersions, useCurrentResource,
      b.t("common:selectPipelineDelete"), b.t("common:delete"), b.t("common:delete"))]
    ensures b.actions[ButtonKey.DeleteRun].action == ConfirmPipelinesAndVersions
  {
    ghost var before := b.actions;
    self := b.Delete(resource, useCurrentResource);
    ghost var first := b.actions[ButtonKey.DeleteRun];
    self := self.DeletePipelinesAndPipelineVersions(useCurrentResource);
    OverwriteTwice(before, ButtonKey.DeleteRun, first, b.actions[ButtonKey.DeleteRun]);
  }

  /** Proof helper: writing a slot twice leaves what the second write put there. */
  lemma OverwriteTwice(m: map<ButtonKey, Descriptor>, key: ButtonKey, first: Descriptor, second: Descriptor)
    ensures m[key := first][key := second] == m[key := second]
  {
  }

  /** The page's toolbar: the actions it shows and every `updateToolbar` call it received. */
  class Toolbar {
    var actions: map<ButtonKey, Descriptor>
    var published: seq<map<ButtonKey, Descriptor>>

    constructor(actions: map<ButtonKey, Descriptor>)
      ensures this.actions == actions && published == []
    {
      this.actions := actions;
      published := [];
    }
  }

  /** How one enable or disable click ended. */
  datatype Toggle =
    | Skipped                  // empty recurring-run id: nothing happens
    | MissingButton            // the toolbar has no such button: the handler throws before any call
    | Toggled(call: ApiOp, refreshed: bool, dialog: Option<Dialog>)

  /** The toolbar slot whose busy flag an enable or disable click raises. */
  function ToggleKey(enabled: bool): (k: ButtonKey)
    ensures k == ButtonKey.EnableRecurringRun <==> enabled
    ensures k == ButtonKey.DisableRecurringRun <==> !enabled
  {
    if enabled then ButtonKey.EnableRecurringRun else ButtonKey.DisableRecurringRun
  }

  /** The dialog shown when enabling or disabling fails: it carries the error text,
      and its single dismiss button, like its backdrop, closes it without calling
      anything. */
  function ToggleFailureDialog(t: string -> string, enabled: bool, error: string): (d: Dialog)
    ensures d.content == Some(error)
    ensures |d.buttons| == 1 && d.buttons[0].text == t("common:dismiss")
    ensures forall c: Closing :: ClosingValue(d, c) == None
    ensures d.title == t("common:failedTo") + " " + (if enabled then t("common:enable") else t("common:disable"))
                       + " " + t("common:recurringRun")
  {
    Dialog(t("common:failedTo") + " " + (if enabled then t("common:enable") else t("common:disable"))
           + " " + t("common:recurringRun"),
           Some(error), [DialogButton(t("common:dismiss"), None)], None)
  }

  /** `_setRecurringRunEnabledState`: for a non-empty id whose button is on the
      toolbar, the button is published busy, the job is enabled or disabled, the
      list is refreshed on success or a failure dialog shown on rejection, and the
      button is published idle again whatever happened. */
  method SetRecurringRunEnabledState(toolbar: Toolbar, t: string -> string, id: Id, enabled: bool,
                                     api: Id -> CallResult)
    returns (o: Toggle)
    modifies toolbar
    ensures id == "" ==> o == Skipped && unchanged(toolbar)
    ensures id != "" && ToggleKey(enabled) !in old(toolbar.actions) ==> o == MissingButton && unchanged(toolbar)
    ensures id != "" && ToggleKey(enabled) in old(toolbar.actions) ==>
      var key := ToggleKey(enabled);
      var before := old(toolbar.actions);
      && o == Toggled(if enabled then EnableJob else DisableJob,
                      api(id).Resolved?,
                      if api(id).Rejected? then Some(ToggleFailureDialog(t, enabled, api(id).error)) else None)
      && toolbar.actions == before[key := before[key].(busy := Some(false))]
      && toolbar.published == old(toolbar.published) + [before[key := before[key].(busy := Some(true))], toolbar.actions]
  {
    if id == "" {
      return Skipped;
    }
    var key := ToggleKey(enabled);
    if key !in toolbar.actions {
      return MissingButton;
    }
    toolbar.actions := toolbar.actions[key := toolbar.actions[key].(busy := Some(true))];
    toolbar.published := toolbar.published + [toolbar.actions];
    var call := if enabled then EnableJob else DisableJob;
    match api(id) {
      case Resolved =>
        o := Toggled(call, true, None);
      case Rejected(e) =>
        o := Toggled(call, false, Some(ToggleFailureDialog(t, enabled, e)));
    }
    toolbar.actions := toolbar.actions[key := toolbar.actions[key].(busy := Some(false))];
    toolbar.published := toolbar.published + [toolbar.actions];
  }
}
