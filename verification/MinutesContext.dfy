/** What the deliveries of a run share: configured destinations and the context that minutes are made from. */
module MinutesContext {
  import opened Options
  import opened MinutesRun
  import opened MinutesLog
  import opened MinutesStore

  datatype Bound = Bound(minutes: Minutes) | UnknownReference | AttestationMismatch | Unbindable(message: string)

  /** Whether a drafted task is among the open tasks of the context already, or resembles one. */
  datatype Known = Unknown | SameAs(taskId: string) | Resembles(taskId: string)

  /** Code outside the model that the pipeline calls as functions: hashing, checks and validators. */
  datatype Ports = Ports(
    destinations: seq<Destination>, destinationsValid: bool, mode: Mode, repairsBoard: bool,
    digest: string -> string, isBlank: string -> bool, isPlaceholder: Minutes -> bool,
    validReceipt: (ContextReceipt, Identity) -> bool,
    bind: (Minutes, ContextReceipt, Mode) -> Bound, validCase: string -> bool,
    reconcile: (TaskDraft, ContextReceipt) -> Known, resolvesAssignees: bool, updatesTasks: bool, postsCard: bool,
    safeMessage: (string, string) -> string, safeCode: Option<string> -> Option<string>,
    diagnosticCode: ApiError -> Option<string>)

  const MAIN_BRANCH := "main"

  function OrElse(value: Option<string>, default: string): string {
    match value
    case Some(v) => v
    case None => default
  }

  predicate SameDestination(a: Destination, b: Destination) {
    && a.id == b.id && a.projectId == b.projectId && a.name == b.name && a.channel == b.channel
    && a.github.owner == b.github.owner && a.github.repo == b.github.repo
    && OrElse(a.github.branch, MAIN_BRANCH) == OrElse(b.github.branch, MAIN_BRANCH)
    && OrElse(a.github.pathPrefix, "") == OrElse(b.github.pathPrefix, "")
  }

  function FindDestination(destinations: seq<Destination>, id: string): (found: Option<Destination>)
    ensures found.Some? ==> found.value in destinations && found.value.id == id
  {
    if destinations == [] then None
    else if destinations[0].id == id then Some(destinations[0])
    else FindDestination(destinations[1..], id)
  }

  predicate ContextUsable(receipt: ContextReceipt, mode: Mode) {
    mode == Required ==> receipt.status == Resolved || receipt.status == ConfirmedEmpty
  }

  /** The durable record knows the published stage of the working copy. */
  ghost predicate PublishSynced(w: RunStore)
    reads w
  {
    && w.durable.revision == w.run.revision && w.durable.github == w.run.github
    && w.durable.slack.parentTs == w.run.slack.parentTs && w.durable.slack.posted == w.run.slack.posted
  }

  const NO_TASKS := Tasks([], None, None)

  function TasksOf(r: Run): Tasks {
    if r.tasks.Some? then r.tasks.value else NO_TASKS
  }

  /** It knows the state of the tasks as well. */
  ghost predicate Synced(w: RunStore)
    reads w
  {
    PublishSynced(w) && TasksOf(w.durable) == TasksOf(w.run)
  }

  // ---- Context ----

  /** The run's context is this receipt, valid for the run's own identity and usable in this mode. */
  ghost predicate ContextIs(runId: string, r: Run, ports: Ports, receipt: ContextReceipt) {
    && r.context.Some? && r.destination.Some? && r.transcriptSha.Some?
    && r.context.value.receiptId == receipt.receiptId && r.context.value.checksum == receipt.checksum
    && ContextUsable(receipt, ports.mode)
    && ports.validReceipt(receipt, Identity(runId, r.destination.value.contextProject, r.transcriptSha.value))
  }

  /** Note the receipt as the run's context, durably, unless it is there in full. */
  method KeepContext(w: RunStore, receipt: ContextReceipt) returns (s: Signal)
    requires w.Working() && (w.run.github.Some? ==> w.run.context.Some? && w.run.destination.Some?)
    requires w.run.context.Some? ==>
      w.run.context.value.receiptId == receipt.receiptId && w.run.context.value.checksum == receipt.checksum
    modifies w
    ensures w.Working() && w.run == old(w.run).(context := w.run.context) && w.run.context.Some?
    ensures w.run.context.value.receiptId == receipt.receiptId && w.run.context.value.checksum == receipt.checksum
    ensures w.durable == old(w.durable) || w.durable == w.run
    ensures s == Done ==> w.durable == w.run || w.run == old(w.run)
  {
    hide MaySave, Coherent, LogOk, HistoryOf;
    s := Done;
    var context := if w.run.context.Some? then w.run.context.value
                   else Context(receipt.receiptId, receipt.checksum, receipt.status, None);
    if context.receipt.None? {
      context := context.(receipt := Some(receipt));
      if w.run.github.Some? {
        MaySaveRouting(w.past, w.run, w.run.destination.value, context);
      } else {
        MaySaveDraft(w.past, w.run, w.run.destination, Some(context), w.run.generated);
      }
      w.run := w.run.(context := Some(context));
      s := w.SaveRun();
    }
  }

  /**
   * `resolveRunContext`: obtain, check and persist the receipt of the generation context. Only a delivery that
   * `observes` its stages notes the gate.
   */
  method ResolveContext(w: RunStore, ports: Ports, observes: bool) returns (s: Signal, receipt: ContextReceipt)
    requires w.Working()
    modifies w
    ensures w.Working() && w.run == old(w.run).(context := w.run.context, stage := w.run.stage)
    ensures (old(PublishSynced(w)) ==> PublishSynced(w)) && (old(Synced(w)) ==> Synced(w))
    ensures old(w.run.context).Some? ==>
      && w.run.context.Some? && w.run.context.value.receiptId == old(w.run.context.value.receiptId)
      && w.run.context.value.checksum == old(w.run.context.value.checksum)
    ensures s == Done ==> ContextIs(w.env.runId, w.run, ports, receipt)
  {
    hide MaySave, Coherent, LogOk, HistoryOf;
    receipt := *;
    if w.run.destination.None? || w.run.transcriptSha.None? {
      return Threw("meeting_minutes_context_identity_missing"), receipt;
    }
    if w.run.github.Some? && w.run.context.None? {
      return Threw("meeting_minutes_context_receipt_missing"), receipt;
    }
    var identity := Identity(w.env.runId, w.run.destination.value.contextProject, w.run.transcriptSha.value);
    if w.run.context.Some? && w.run.context.value.receipt.Some? {
      receipt := w.run.context.value.receipt.value;
    } else {
      var reply: Reply<ContextReceipt> := Ask();
      match reply {
        case Answer(value) => receipt := value;
        case Error(message) => return Threw(message), receipt;
        case Crash => return Crashed, receipt;
      }
    }
    if !ports.validReceipt(receipt, identity) {
      return Threw("meeting_minutes_context_invalid_receipt"), receipt;
    }
    if observes {
      MaySaveUnguarded(w.past, w.run, w.run.(stage := Some(ContextGate)));
      w.run := w.run.(stage := Some(ContextGate));
    }
    s := w.SaveRun();
    if s != Done { return s, receipt; }
    if !ContextUsable(receipt, ports.mode) {
      return Threw("meeting_minutes_context_unusable"), receipt;
    }
    if w.run.context.Some?
       && (w.run.context.value.receiptId != receipt.receiptId || w.run.context.value.checksum != receipt.checksum) {
      return Threw("meeting_minutes_context_changed"), receipt;
    }
    s := KeepContext(w, receipt);
  }
}
