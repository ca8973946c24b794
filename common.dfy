/** Values shared by every part of the toolbar-action model: resource ids, the
    outcome of a REST call, the dialogs shown by the host page, and the host's
    collaborators (translation, plural suffix) that the model takes as parameters. */
module Common {

  datatype Option<+T> = None | Some(value: T) {
    function GetOr(default: T): T {
      match this
      case Some(v) => v
      case None => default
    }
  }

  /** A resource id (run, experiment, pipeline, pipeline version, recurring run). */
  type Id = string

  /** How one REST call settled. A rejected call carries the text that
      `errorToMessage` produced for the caught error. */
  datatype CallResult = Resolved | Rejected(error: string)

  /** The endpoints of the generated API client that the toolbar calls. */
  datatype ApiOp =
    | ArchiveRun | UnarchiveRun | RetryRun | TerminateRun | DeleteRun
    | ArchiveExperiment | UnarchiveExperiment
    | DeletePipeline | DeletePipelineVersion
    | DeleteJob | EnableJob | DisableJob

  /** The confirm-and-execute actions; each fixes an endpoint, a verb and a resource noun. */
  datatype BatchKind =
    | ArchiveRuns | ArchiveExperiments | RestoreRuns | RestoreExperiments | RetryRuns
    | DeletePipelines | DeletePipelineVersions | DeleteRecurringRun | TerminateRuns | DeleteRuns

  /** Collaborators of the toolbar that are not part of this model:
      `t` is the translation lookup `i18n.t`, `s` the plural suffix `s(...)` for a
      count, and `body` the confirmation text an action composes from translated
      fragments for a selection of the given size. */
  datatype Env = Env(t: string -> string, s: nat -> string, body: (BatchKind, nat) -> string)

  /** A dialog button; `confirms` is the value it passes to the close handler,
      `None` for a button that only dismisses the dialog. */
  datatype DialogButton = DialogButton(text: string, confirms: Option<bool>)

  /** The argument of `updateDialog`; `content` is `None` when the dialog has no body.
      `onClose` is what closing the dialog by the backdrop passes to the close
      handler, `None` when there is no handler. */
  datatype Dialog = Dialog(title: string, content: Option<string>, buttons: seq<DialogButton>, onClose: Option<bool>)
}
