/**
 * What happens around a run's deliveries: its outcome shown in Slack, its receipt delivered, retried or
 * corrected; and the whole life of a run as any sequence of all deliveries.
 */
module MinutesLifecycle {
  import opened Options
  import opened MinutesRun
  import opened MinutesLog
  import opened MinutesStore
  import opened MinutesContext
  import opened MinutesTasks
  import opened MinutesPipeline
  import opened MinutesReceipts
  import opened MinutesRedo
  import opened MinutesRecovery
  import opened MinutesTaskActions

  datatype Projection = Projection(keyOf: KeyOf, delivers: bool, hasFallback: bool)

  const NO_COORDINATES := "meeting_minutes_status_coordinates_missing"

  // ---- Which receipt steps keep the record writable ----

  lemma MaySaveReceipt(h: History, r: Run, receipt: RunReceipt)
    requires MaySave(h, r) && r.revision <= h.current && r.github.Some? && !ReceiptDelivered(r)
    requires receipt.status == Delivered ==> receipt.caseId == r.outcomeCaseId
    ensures MaySave(h, r.(receipt := Some(receipt)))
  {
  }

  lemma MaySaveCorrection(h: History, r: Run, caseId: Option<string>, receipt: RunReceipt)
    requires MaySave(h, r) && r.revision <= h.current && r.github.Some? && !ReceiptDelivered(r)
    requires receipt.status == Pending
    ensures MaySave(h, r.(outcomeCaseId := caseId, receiptRevision := r.receiptRevision + 1, receipt := Some(receipt)))
  {
  }

  lemma SendingPermitted(w: RunStore)
    requires w.Working() && w.durable == w.run && w.run.github.Some?
    ensures var r := w.run;
      var id := ExternalId(w.env.runId, r.revision, r.receiptRevision);
      Permitted(w.env, w.past, ReceiptSent(r.revision, r.receiptRevision, id, r.outcomeCaseId))
  {
  }

  lemma SendingKeepsHistory(h: History, e: Event)
    requires e.ReceiptSent?
    ensures After(h, e) == h
  {
  }

  // ---- Receipts ----

  /** The record's receipt is `key`, pending. */
  ghost predicate PendingUnder(r: Run, key: string) {
    && r.receipt.Some? && r.receipt.value.status == Pending && r.receipt.value.key == key
    && r.receipt.value.caseId == r.outcomeCaseId
  }

  /** The record's receipt was delivered under `key`, for the case that the record declares. */
  ghost predicate DeliveredUnder(r: Run, key: string) {
    && r.receipt.Some? && r.receipt.value.status == Delivered && r.receipt.value.key == key
    && r.receipt.value.caseId == r.outcomeCaseId && r.receipt.value.receiptId.Some?
    && r.receipt.value.failure.None?
  }

  /** Send a receipt that is durably pending, and record how that went. */
  method SendReceipt(w: RunStore, receipt: Receipt) returns (s: Signal)
    requires w.Working() && w.durable == w.run && w.run.github.Some? && PendingUnder(w.run, receipt.key)
    modifies w
    ensures w.Working() && w.run == old(w.run).(receipt := w.run.receipt)
    ensures s == Done ==> w.durable == w.run && DeliveredUnder(w.run, receipt.key)
    ensures s != Done ==> PendingUnder(w.durable, receipt.key) || DeliveredUnder(w.durable, receipt.key)
  {
    hide MaySave, Coherent, After, Permitted, LogOk, HistoryOf;
    SendingPermitted(w);
    ghost var sending := ReceiptSent(w.run.revision, w.run.receiptRevision,
      ExternalId(w.env.runId, w.run.revision, w.run.receiptRevision), w.run.outcomeCaseId);
    SendingKeepsHistory(w.past, sending);
    w.Record(sending);
    var reply: Reply<string> := Ask();
    match reply {
      case Crash => return Crashed;
      case Error(message) =>
        var failed := w.run.receipt.value.(failure := Some(message));
        MaySaveReceipt(w.past, w.run, failed);
        w.run := w.run.(receipt := Some(failed));
        s := w.SaveRun();
        if s == Done { s := Threw(message); }
      case Answer(id) =>
        var delivered := w.run.receipt.value.(receiptId := Some(id), status := Delivered, failure := None);
        MaySaveReceipt(w.past, w.run, delivered);
        w.run := w.run.(receipt := Some(delivered));
        s := w.SaveRun();
    }
  }

  /** The receipt step of a completed run; a receipt that was delivered is left as it is. */
  method DeliverReceipt(w: RunStore, ports: Projection) returns (s: Signal)
    requires w.Working()
    modifies w
    ensures w.Working() && w.run == old(w.run).(receipt := w.run.receipt)
    ensures s == Done && !old(ReceiptDelivered(w.run)) ==>
      var receipt := BuildReceipt(w.env.runId, old(w.run), ports.keyOf);
      && (receipt.None? ==> w.durable == old(w.durable))
      && (receipt.Some? && ports.delivers ==> DeliveredUnder(w.durable, receipt.value.key))
      && (receipt.Some? && !ports.delivers ==> PendingUnder(w.durable, receipt.value.key))
    ensures old(ReceiptDelivered(w.run)) ==>
      s == Done && w.run == old(w.run) && w.durable == old(w.durable) && w.log == old(w.log)
  {
    hide MaySave, Coherent, LogOk, HistoryOf;
    var receipt := BuildReceipt(w.env.runId, w.run, ports.keyOf);
    if receipt.None? || ReceiptDelivered(w.run) { return Done; }
    var pending := RunReceipt(w.run.outcomeCaseId, receipt.value.key, Pending, None, None);
    MaySaveReceipt(w.past, w.run, pending);
    w.run := w.run.(receipt := Some(pending));
    s := w.SaveRun();
    if s != Done || !ports.delivers { return; }
    s := SendReceipt(w, receipt.value);
  }

  /** `retryMeetingMinutesRunReceipt`: deliver a pending receipt again, only under its unchanged identity. */
  method RetryReceipt(w: RunStore, ports: Projection) returns (s: Signal, retried: bool)
    requires w.Valid()
    modifies w
    ensures w.Valid()
    ensures retried <==>
      var r := old(w.durable);
      var receipt := BuildReceipt(w.env.runId, r, ports.keyOf);
      receipt.Some? && r.receipt.Some? && r.receipt.value.status == Pending && r.receipt.value.key == receipt.value.key
    ensures !retried ==> w.durable == old(w.durable) && w.log == old(w.log) + [Begin]
    ensures s == Done && retried ==>
      && DeliveredUnder(w.durable, old(w.durable.receipt.value.key))
      && w.durable == old(w.durable).(receipt := w.durable.receipt)
  {
    hide MaySave, Coherent, LogOk, HistoryOf;
    w.Load();
    var receipt := BuildReceipt(w.env.runId, w.run, ports.keyOf);
    retried := receipt.Some? && w.run.receipt.Some? && w.run.receipt.value.status == Pending
      && w.run.receipt.value.key == receipt.value.key;
    s := Done;
    if !retried { return; }
    var pending := w.run.receipt.value.(caseId := w.run.outcomeCaseId);
    MaySaveReceipt(w.past, w.run, pending);
    w.run := w.run.(receipt := Some(pending));
    s := w.SaveRun();
    if s != Done { return; }
    s := SendReceipt(w, receipt.value);
  }

  /** What lets an administrator correct the case of a run. */
  predicate Correctable(r: Run, authorization: Authorization, caseId: string) {
    && r.outcomeCaseId != Some(caseId) && r.authorization == Some(authorization)
    && r.destination.Some? && !ReceiptDelivered(r)
  }

  /**
   * An administrator's correction of the case: only for whom the run is authorized, only before delivery, and
   * under a new receipt identity.
   */
  method CorrectCase(w: RunStore, ports: Projection, authorization: Authorization, caseId: string) returns (s: Signal)
    requires w.Valid()
    modifies w
    ensures w.Valid()
    ensures !Correctable(old(w.durable), authorization, caseId) ==> w.durable == old(w.durable)
    ensures w.durable == old(w.durable)
         || (&& w.durable.outcomeCaseId == Some(caseId) && w.durable.receipt.Some?
             && PendingUnder(w.durable, w.durable.receipt.value.key)
             && w.durable.revision == old(w.durable.revision)
             && w.durable.receiptRevision == old(w.durable.receiptRevision) + 1
             && w.durable.github == old(w.durable.github) && w.durable.slack == old(w.durable.slack))
  {
    hide MaySave, Coherent, LogOk, HistoryOf;
    w.Load();
    if !Correctable(w.run, authorization, caseId) { return Done; }
    var corrected := w.run.(outcomeCaseId := Some(caseId), receiptRevision := w.run.receiptRevision + 1);
    var receipt := BuildReceipt(w.env.runId, corrected, ports.keyOf);
    if receipt.None? { return Done; }
    var pending := RunReceipt(Some(caseId), receipt.value.key, Pending, None, None);
    MaySaveCorrection(w.past, w.run, Some(caseId), pending);
    w.run := corrected.(receipt := Some(pending));
    s := w.SaveRun();
  }

  // ---- Showing the outcome ----

  /** The records differ at most in how the outcome was shown. */
  ghost predicate ReprojectedOnly(r: Run, r': Run) {
    r' == r.(projectionFailure := r'.projectionFailure, statusProjection := r'.statusProjection,
             readback := r'.readback)
  }

  /** `recordProjectionSuccess` and, on any failure of showing or recording, `recordProjectionFailure`. */
  method ShowOutcome(w: RunStore, shown: Shown, hasFallback: bool) returns (s: Signal, ok: bool, message: string)
    requires w.Working()
    modifies w
    ensures w.Working()
    ensures ReprojectedOnly(old(w.run), w.run)
    ensures w.durable == old(w.durable) || ReprojectedOnly(old(w.run), w.durable)
    ensures s == Done ==>
      && w.durable == w.run && (ok <==> w.run.statusProjection == Some(shown))
      && (ok <==> w.run.projectionFailure.None?)
  {
    hide MaySave, Coherent, LogOk, HistoryOf;
    message, ok := "", false;
    ghost var start := w.run;
    var reply: Reply<Option<Readback>> := Ask();
    match reply {
      case Crash => return Crashed, ok, message;
      case Error(failure) => message := failure;
      case Answer(readback) =>
        var next := w.run.(projectionFailure := None, statusProjection := Some(shown),
                           readback := if readback.Some? then readback else w.run.readback);
        MaySaveUnguarded(w.past, w.run, next);
        w.run := next;
        s := w.SaveRun();
        match s {
          case Done => return Done, true, message;
          case Crashed => return;
          case Threw(failure) => message := failure;
        }
    }
    s := RecordProjectionFailure(w, message, hasFallback);
  }

  method RecordProjectionFailure(w: RunStore, message: string, hasFallback: bool) returns (s: Signal)
    requires w.Working()
    modifies w
    ensures w.Working()
    ensures w.run == old(w.run).(statusProjection := None, projectionFailure := Some(message))
    ensures w.durable == old(w.durable) || w.durable == w.run
    ensures s == Done ==> w.durable == w.run
  {
    hide MaySave, Coherent, LogOk, HistoryOf;
    var next := w.run.(statusProjection := None, projectionFailure := Some(message));
    MaySaveUnguarded(w.past, w.run, next);
    w.run := next;
    s := w.SaveRun();
    if s == Done && hasFallback {
      var reply: Reply<bool> := Ask();
      if reply.Crash? { s := Crashed; }
    }
  }

  /** `projectCompleted`: show a completed run; only then deliver its receipt. */
  method ProjectCompleted(w: RunStore, ports: Projection) returns (s: Signal)
    requires w.Working()
    modifies w
    ensures w.Working()
    ensures s == Done && Healthy(w.run) && !old(ReceiptDelivered(w.run)) && ports.delivers ==>
      var receipt := BuildReceipt(w.env.runId, w.run, ports.keyOf);
      receipt.Some? && DeliveredUnder(w.durable, receipt.value.key)
    ensures old(ReceiptDelivered(w.run)) ==> w.run.receipt == old(w.run.receipt)
    ensures s == Done && Healthy(w.run) && ports.delivers ==> ReceiptDelivered(w.durable)
  {
    hide MaySave, Coherent, LogOk, HistoryOf;
    MaySaveUnguarded(w.past, w.run, w.run.(projectionFailure := None));
    w.run := w.run.(projectionFailure := None);
    var ok, message;
    s, ok, message := ShowOutcome(w, ShownCompleted, ports.hasFallback);
    if s != Done { return; }
    if !ok {
      return if message == NO_COORDINATES then Done else Threw(message);
    }
    s := DeliverReceipt(w, ports);
  }

  /** `projectFailed`, with the recovery told that the failure is already shown. */
  method ProjectFailed(w: RunStore, hasFallback: bool) returns (s: Signal)
    requires w.Valid()
    modifies w
    ensures w.Valid()
    ensures w.durable.status == old(w.durable.status) && w.durable.github == old(w.durable.github)
    ensures w.durable.receipt == old(w.durable.receipt)
  {
    hide MaySave, Coherent, LogOk, HistoryOf;
    w.Load();
    var ok, message;
    s, ok, message := ShowOutcome(w, ShownFailed, hasFallback);
    if s == Done && ok && w.run.lifecycle.Some? {
      SetLifecycle(w, w.run.lifecycle.value.(projected := true));
      s := w.SaveRun();
    }
  }

  /** One delivery of a selection with its outcome shown. */
  method ProcessSelection(w: RunStore, ports: Ports, projection: Projection, selection: Selection) returns (s: Signal)
    requires w.Valid()
    modifies w
    ensures w.Valid()
    ensures s == Done && Healthy(w.run) && projection.delivers ==> ReceiptDelivered(w.durable)
  {
    hide MaySave, Coherent, LogOk, HistoryOf;
    s := Resume(w, ports, selection);
    match s {
      case Crashed =>
      case Threw(message) =>
        var shown := ProjectFailed(w, projection.hasFallback);
        s := if shown == Done then Threw(message) else shown;
      case Done =>
        s := w.SaveRun();
        if s != Done { return; }
        s := ProjectCompleted(w, projection);
    }
  }

  // ---- Operator repairs ----

  /** Only the last display of the outcome had failed when this was taken for a failure of the run. */
  predicate OnlyProjectionFailed(r: Run) {
    && r.status == Failed && r.failure.Some? && r.failure.value.stage == "completed"
    && r.stage == Some(StatusProjection) && r.code == Some("STATUS_PROJECTION_FAILED")
  }

  /** The durable output proves that processing completed. */
  predicate Repairable(r: Run) {
    && r.destination.Some? && r.generated.Some? && r.github.Some?
    && r.slack.processingTs.Some? && r.slack.parentTs.Some?
    && (r.status == Completed || OnlyProjectionFailed(r))
    && (r.tasks.Some? ==> r.tasks.value.pending.None? && r.tasks.value.failure.None?)
  }

  predicate SameThread(source: Source, channelId: string, threadTs: string) {
    source.channelId == channelId && source.threadTs == threadTs
  }

  /** Show first, persist afterwards: a failure leaves the durable record as it was. */
  method RepairCompletedProjection(w: RunStore, channelId: string, threadTs: string) returns (s: Signal)
    requires w.Valid()
    modifies w
    ensures w.Valid()
    ensures !Repairable(old(w.durable)) || !SameThread(w.source, channelId, threadTs) ==> w.durable == old(w.durable)
    ensures s == Done && Repairable(old(w.durable)) && SameThread(w.source, channelId, threadTs) ==>
      && w.durable.status == Completed && w.durable.failure.None? && w.durable.projectionFailure.None?
      && w.durable.statusProjection == Some(ShownCompleted) && w.durable.receipt == old(w.durable.receipt)
  {
    hide MaySave, Coherent, LogOk, HistoryOf;
    w.Load();
    if !SameThread(w.source, channelId, threadTs) || !Repairable(w.run) { return Done; }
    var reply: Reply<Option<Readback>> := Ask();
    match reply {
      case Crash => s := Crashed;
      case Error(message) => s := Threw(message);
      case Answer(readback) =>
        var next := w.run.(status := Completed, failure := None, stage := None, code := None, projectionFailure := None,
                           readback := if readback.Some? then readback else w.run.readback,
                           statusProjection := Some(ShownCompleted));
        MaySaveUnguarded(w.past, w.run, next);
        w.run := next;
        s := w.SaveRun();
    }
  }

  /** The destination prompt is all that was ever shown of the run, on a message of its own. */
  predicate Untouched(r: Run, source: Source, messageTs: string) {
    && r.status == AwaitingDestination && r.destination.None? && r.generated.None? && r.github.None?
    && r.slack.processingTs.None? && r.slack.parentTs.None? && r.slack.taskCardTs.None? && r.tasks.None?
    && !(r.slack.selectionTs == Some(source.threadTs) || r.slack.selectionTs == Some(messageTs))
  }

  /** `repairMeetingMinutesDestinationProjection`: show the prompt of an untouched run again. */
  method RepairPrompt(w: RunStore, source: Source, messageTs: string) returns (s: Signal)
    requires w.Valid()
    modifies w
    ensures w.Valid()
    ensures w.source != source || !Untouched(old(w.durable), source, messageTs) ==> w.durable == old(w.durable)
    ensures w.durable == old(w.durable).(
      slack := old(w.durable.slack).(selectionTs := w.durable.slack.selectionTs),
      projectionFailure := w.durable.projectionFailure)
  {
    hide MaySave, Coherent, LogOk, HistoryOf;
    w.Load();
    if w.source != source || !Untouched(w.run, source, messageTs) { return Done; }
    var reply: Reply<string> := Ask();
    if reply.Crash? { return Crashed; }
    if reply.Error? { return Threw(reply.message); }
    if reply.value == "" { return Threw("meeting_minutes_selection_ts_missing"); }
    var next := w.run.(slack := w.run.slack.(selectionTs := Some(reply.value)), projectionFailure := None);
    MaySaveUnguarded(w.past, w.run, next);
    w.run := next;
    s := w.SaveRun();
  }

  /** `startMeetingMinutesRuns`, for this run: ask for a destination unless that was done. */
  method Announce(w: RunStore, classifies: bool) returns (s: Signal)
    requires w.Valid()
    modifies w
    ensures w.Valid()
    ensures old(w.durable.slack.selectionTs).Some? ==> w.durable == old(w.durable)
    ensures w.durable == old(w.durable).(slack := old(w.durable.slack).(selectionTs := w.durable.slack.selectionTs))
    ensures s == Done ==> w.durable.slack.selectionTs.Some?
  {
    hide MaySave, Coherent, LogOk, HistoryOf;
    w.Load();
    s := Done;
    if w.run.slack.selectionTs.Some? { return; }
    if classifies {
      s := w.SaveRun();
      if s != Done { return; }
    }
    var reply: Reply<string> := Ask();
    if reply.Crash? { return Crashed; }
    if reply.Error? { return Threw(reply.message); }
    var next := w.run.(slack := w.run.slack.(selectionTs := Some(reply.value)));
    MaySaveUnguarded(w.past, w.run, next);
    w.run := next;
    s := w.SaveRun();
  }

  /** Note for whom the run may be recovered, before a selection of it is processed. */
  method Authorize(w: RunStore, authorization: Authorization) returns (s: Signal)
    requires w.Valid()
    modifies w
    ensures w.Valid() && w.durable == old(w.durable).(authorization := w.durable.authorization)
    ensures s == Done ==> w.durable.authorization == Some(authorization)
  {
    hide MaySave, Coherent, LogOk, HistoryOf;
    w.Load();
    MaySaveUnguarded(w.past, w.run, w.run.(authorization := Some(authorization)));
    w.run := w.run.(authorization := Some(authorization));
    s := w.SaveRun();
  }

  // ---- A whole life ----

  /** Everything in the source that saves a run. */
  datatype Request =
    | Announced(classifies: bool)
    | Authorized(whom: Authorization)
    | ArmAsked(from: Source, actionTs: string, now: int)
    | Selected(ports: Ports, selection: Selection)
    | RecoveryDue(action: string, at: int, hasFallback: bool)
    | RedoAsked(redo: RedoPorts, command: Command)
    | CardCancelled(from: Source, destinations: seq<Destination>, index: nat, allowed: bool)
    | CardEdited(from: Source, destinations: seq<Destination>, index: nat, allowed: bool, form: Form)
    | TasksAdopted(ids: seq<string>, allowed: bool)
    | ReceiptRetried
    | CaseCorrected(whom: Authorization, caseId: string)
    | ProjectionRepaired(channelId: string, threadTs: string)
    | PromptRepaired(from: Source, messageTs: string)

  method Deliver(w: RunStore, projection: Projection, request: Request)
    requires w.Valid()
    modifies w
    ensures w.Valid()
  {
    hide MaySave, Coherent, LogOk, HistoryOf;
    match request {
      case Announced(classifies) => var _ := Announce(w, classifies);
      case Authorized(authorization) => var _ := Authorize(w, authorization);
      case ArmAsked(from, actionTs, now) => var _, _ := Arm(w, from, actionTs, now);
      case Selected(ports, selection) => var _ := ProcessSelection(w, ports, projection, selection);
      case RecoveryDue(action, at, fallback) => var _, _ := Recover(w, action, at, fallback);
      case RedoAsked(ports, command) => var _ := HandleRedo(w, ports, command);
      case CardCancelled(from, destinations, index, allowed) =>
        var _ := CancelTask(w, from, destinations, index, allowed);
      case CardEdited(from, destinations, index, allowed, form) =>
        var _, _ := EditTask(w, from, destinations, index, allowed, form);
      case TasksAdopted(ids, allowed) => var _ := AdoptTasks(w, ids, allowed);
      case ReceiptRetried => var _, _ := RetryReceipt(w, projection);
      case CaseCorrected(authorization, caseId) => var _ := CorrectCase(w, projection, authorization, caseId);
      case ProjectionRepaired(channelId, threadTs) => var _ := RepairCompletedProjection(w, channelId, threadTs);
      case PromptRepaired(from, messageTs) => var _ := RepairPrompt(w, from, messageTs);
    }
  }

  /**
   * Any requests in any order, each with its crashes and lost or unacknowledged saves: the log is permitted
   * throughout.
   */
  method Live(env: Env, source: Source, projection: Projection, requests: seq<Request>) returns (w: RunStore)
    ensures w.Valid() && w.env == env && LogOk(env, w.log)
  {
    hide MaySave, Coherent, HistoryOf;
    w := new RunStore(env, source);
    for i := 0 to |requests|
      invariant w.Valid() && w.env == env && fresh(w)
    {
      Deliver(w, projection, requests[i]);
    }
  }
}
