/** `resumeMeetingMinutesRun`: from a chosen destination to minutes posted in its Slack thread. */
module MinutesPipeline {
  import opened Options
  import opened MinutesRun
  import opened MinutesLog
  import opened MinutesStore
  import opened MinutesContext
  import opened MinutesTasks

  datatype Selection = Selection(
    source: Source, destinationId: string, userId: string, actionTs: string,
    outcomeCaseId: Option<string>, adminAuthorized: bool)

  // ---- Minutes ----

  /** `generateWithDiagnostics`: the model run, with any number of diagnostic saves while it lasts. */
  method Generate(w: RunStore) returns (reply: Reply<Minutes>)
    requires w.Working()
    modifies w
    ensures w.Working()
    ensures w.run == old(w.run).(stage := w.run.stage)
  {
    hide MaySave, Coherent, LogOk, HistoryOf;
    var observations := AnyNumber();
    ghost var start := w.run;
    for i := 0 to observations
      invariant w.Working() && w.run == start.(stage := w.run.stage)
    {
      MaySaveUnguarded(w.past, w.run, w.run.(stage := Some(Generation)));
      w.run := w.run.(stage := Some(Generation));
      var s := w.SaveRun();
      match s {
        case Done =>
        case Threw(message) => return Error(message);
        case Crashed => return Crash;
      }
    }
    reply := Ask();
  }

  /** The record's minutes are the outcome of binding some draft to the receipt. */
  ghost predicate Binds(r: Run, ports: Ports, receipt: ContextReceipt) {
    r.generated.Some? && exists draft :: ports.bind(draft, receipt, ports.mode) == Bound(r.generated.value)
  }

  /** A new draft from the model, bound to the receipt. */
  method GenerateAndBind(w: RunStore, ports: Ports, receipt: ContextReceipt) returns (s: Signal, ghost draft: Minutes)
    requires w.Working() && w.run.github.None?
    modifies w
    ensures w.Working() && w.run == old(w.run).(stage := w.run.stage, generated := w.run.generated)
    ensures s == Done ==>
      w.run.generated.Some? && ports.bind(draft, receipt, ports.mode) == Bound(w.run.generated.value)
  {
    hide MaySave, Coherent, LogOk, HistoryOf;
    draft := *;
    var reply := Generate(w);
    match reply {
      case Error(message) => return Threw(message), draft;
      case Crash => return Crashed, draft;
      case Answer(candidate) =>
        draft := candidate;
        match ports.bind(candidate, receipt, ports.mode) {
          case Bound(minutes) =>
            MaySaveDraft(w.past, w.run, w.run.destination, w.run.context, Some(minutes));
            w.run := w.run.(generated := Some(minutes));
            return Done, draft;
          case UnknownReference => return Threw("meeting_minutes_context_source_ref_unknown"), draft;
          case AttestationMismatch => return Threw("meeting_minutes_context_attestation_mismatch"), draft;
          case Unbindable(message) => return Threw(message), draft;
        }
    }
  }

  /** The saved draft does not fit the receipt in a way that another draft might. */
  predicate Misfit(bound: Bound) {
    bound.UnknownReference? || bound.AttestationMismatch?
  }

  /**
   * Generate minutes, or bind the saved draft to the context and regenerate if it does not fit. `draft` is what
   * was bound: the saved one whenever it fits.
   */
  method DraftMinutes(w: RunStore, ports: Ports, receipt: ContextReceipt) returns (s: Signal, ghost draft: Minutes)
    requires w.Working() && w.run.github.None?
    modifies w
    ensures w.Working()
    ensures w.run == old(w.run).(stage := w.run.stage, generated := w.run.generated, status := w.run.status)
    ensures s == Done ==>
      && w.durable == w.run && w.run.generated.Some?
      && ports.bind(draft, receipt, ports.mode) == Bound(w.run.generated.value)
      && (old(w.run.generated).Some? && !Misfit(ports.bind(old(w.run.generated.value), receipt, ports.mode)) ==>
            draft == old(w.run.generated.value) && w.run.status == old(w.run.status))
      && (old(w.run.generated).None? ==> w.run.status == Generated)
    ensures old(w.run.generated).Some? && ports.bind(old(w.run.generated.value), receipt, ports.mode).Unbindable? ==>
      s != Done
  {
    hide MaySave, Coherent, LogOk, HistoryOf;
    draft := *;
    if w.run.generated.None? {
      s, draft := GenerateAndBind(w, ports, receipt);
      if s != Done { return; }
      MaySaveUnguarded(w.past, w.run, w.run.(status := Generated));
      w.run := w.run.(status := Generated);
    } else {
      match ports.bind(w.run.generated.value, receipt, ports.mode) {
        case Bound(minutes) =>
          draft := w.run.generated.value;
          MaySaveDraft(w.past, w.run, w.run.destination, w.run.context, Some(minutes));
          w.run := w.run.(generated := Some(minutes));
        case Unbindable(message) => return Threw(message), draft;
        case _ =>
          s, draft := GenerateAndBind(w, ports, receipt);
          if s != Done { return; }
      }
    }
    s := w.SaveRun();
  }

  /** The minutes are bound to the receipt that is the run's context. */
  ghost predicate Grounded(runId: string, r: Run, ports: Ports) {
    exists receipt :: ContextIs(runId, r, ports, receipt) && Binds(r, ports, receipt)
  }

  lemma StaysGrounded(runId: string, r: Run, r': Run, ports: Ports)
    requires Grounded(runId, r, ports)
    requires r'.context == r.context && r'.destination == r.destination && r'.transcriptSha == r.transcriptSha
    requires r'.generated == r.generated
    ensures Grounded(runId, r', ports)
  {
    var receipt :| ContextIs(runId, r, ports, receipt) && Binds(r, ports, receipt);
    assert ContextIs(runId, r', ports, receipt) && Binds(r', ports, receipt);
  }

  /** Fix the transcript by its hash; a run whose transcript was seen before accepts no other. */
  method FixTranscript(w: RunStore, ports: Ports) returns (s: Signal)
    requires w.Working() && w.run.github.None? && w.run.destination.Some?
    modifies w
    ensures w.Working() && w.run == old(w.run).(transcriptSha := w.run.transcriptSha)
    ensures old(w.run.transcriptSha).Some? ==> w.run.transcriptSha == old(w.run.transcriptSha)
    ensures s == Done ==>
      && w.run.transcriptSha.Some?
      && exists text :: !ports.isBlank(text) && w.run.transcriptSha.value == ports.digest(text)
  {
    hide MaySave, Coherent, LogOk, HistoryOf;
    var transcript := "";
    var download: Reply<string> := Ask();
    match download {
      case Answer(text) => transcript := text;
      case Error(message) => return Threw(message);
      case Crash => return Crashed;
    }
    if ports.isBlank(transcript) { return Threw("meeting_minutes_transcript_empty"); }
    var sha := ports.digest(transcript);
    if w.run.transcriptSha.Some? && w.run.transcriptSha.value != sha {
      return Threw("meeting_minutes_transcript_changed");
    }
    if w.run.transcriptSha.None? {
      MaySaveHash(w.past, w.run, sha);
      w.run := w.run.(transcriptSha := Some(sha));
    }
    s := Done;
  }

  /** Transcript, context and minutes, each fixed before the next. */
  method PrepareMinutes(w: RunStore, ports: Ports) returns (s: Signal)
    requires w.Working() && w.run.github.None? && w.run.destination.Some?
    modifies w
    ensures w.Working()
    ensures s == Done ==> w.run.github.None? && Grounded(w.env.runId, w.run, ports)
  {
    hide MaySave, Coherent, LogOk, HistoryOf;
    s := FixTranscript(w, ports);
    if s != Done { return; }
    var receipt;
    s, receipt := ResolveContext(w, ports, true);
    if s != Done { return; }
    ghost var draft;
    s, draft := DraftMinutes(w, ports, receipt);
    if s == Done { assert ContextIs(w.env.runId, w.run, ports, receipt); }
  }

  lemma GroundedParts(runId: string, r: Run, ports: Ports)
    requires Grounded(runId, r, ports)
    ensures r.destination.Some? && r.context.Some? && r.generated.Some? && r.transcriptSha.Some?
  {
  }

  /**
   * Everything up to the saved GitHub records; nothing to do when they exist. What is saved are minutes bound
   * to the run's own, usable context receipt.
   */
  method SaveToGitHub(w: RunStore, ports: Ports) returns (s: Signal)
    requires w.Working() && w.run.destination.Some? && Synced(w)
    modifies w
    ensures w.Working()
    ensures s == Done ==> w.run.github.Some? && Synced(w)
    ensures s == Done && old(w.run.github).None? ==> w.run.status == GitHubSaved && Grounded(w.env.runId, w.run, ports)
  {
    hide MaySave, Coherent, LogOk, HistoryOf, Grounded;
    if w.run.github.Some? { return Done; }
    s := PrepareMinutes(w, ports);
    if s != Done { return; }
    var refreshed: Reply<bool> := Ask();
    if refreshed.Crash? { return Crashed; }
    if refreshed.Error? { return Threw(refreshed.message); }
    var saved: Reply<GitHubRecords> := Ask();
    match saved {
      case Error(message) => return Threw(message);
      case Crash => return Crashed;
      case Answer(records) =>
        GroundedParts(w.env.runId, w.run, ports);
        MaySaveGitHub(w.past, w.run, records);
        var next := w.run.(github := Some(records));
        MaySaveUnguarded(w.past, next, next.(status := GitHubSaved));
        StaysGrounded(w.env.runId, w.run, next.(status := GitHubSaved), ports);
        w.run := next.(status := GitHubSaved);
        s := w.SaveRun();
    }
  }

  // ---- Slack ----

  /** The messages that may be posted under a revision whose records are durable. */
  lemma ParentPermitted(w: RunStore)
    requires w.Working() && w.durable.github.Some? && w.durable.revision == w.run.revision
    requires w.run.github.Some? && w.run.generated.Some? && w.run.destination.Some?
    ensures Permitted(w.env, w.past, ParentPost(w.run.revision, ParentKey(w.env.runId, w.run.revision),
              w.run.destination.value.channel, w.env.fileName, ParentText(TextOf(w.run.generated.value))))
  {
    assert Evolves(w.past.latest[w.run.revision], w.run);
  }

  lemma ChunkPermitted(w: RunStore, index: nat)
    requires w.Working() && w.durable.slack.parentTs.Some? && w.durable.revision == w.run.revision
    requires w.run.slack.parentTs.Some? && w.run.generated.Some? && w.run.destination.Some?
    requires index < |w.env.narrative(w.run.generated.value.body)|
    ensures Permitted(w.env, w.past, ChunkPost(w.run.revision, ChunkKey(w.env.runId, w.run.revision, index),
              w.run.destination.value.channel, w.run.slack.parentTs.value, w.env.fileName,
              w.env.narrative(w.run.generated.value.body)[index], index, |w.env.narrative(w.run.generated.value.body)|))
  {
    assert Evolves(w.past.latest[w.run.revision], w.run);
  }

  /** Posting changes nothing that limits what may be saved. */
  lemma PostKeepsMaySave(h: History, e: Event, r: Run)
    requires MaySave(h, r) && IsPost(e)
    ensures MaySave(After(h, e), r)
  {
  }

  /** Parent message and every chunk of the published narrative are recorded as posted. */
  ghost predicate FullyPosted(env: Env, r: Run) {
    && r.github.Some? && r.generated.Some? && r.slack.parentTs.Some?
    && forall i :: 0 <= i < |env.narrative(r.generated.value.body)| ==> i in r.slack.posted
  }

  method PostParent(w: RunStore) returns (s: Signal)
    requires w.Working() && w.durable.github.Some? && w.durable.revision == w.run.revision
    requires w.run.github.Some? && w.run.generated.Some? && w.run.destination.Some?
    requires w.run.slack.parentTs.None?
    modifies w
    ensures w.Working()
    ensures s == Done ==>
      && w.durable == w.run && w.run.slack.parentTs.Some?
      && w.run.github == old(w.run.github) && w.run.generated == old(w.run.generated)
      && w.run.destination == old(w.run.destination)
  {
    hide MaySave, Coherent, Permitted, After, LogOk, HistoryOf;
    ParentPermitted(w);
    ghost var post := ParentPost(w.run.revision, ParentKey(w.env.runId, w.run.revision),
      w.run.destination.value.channel, w.env.fileName, ParentText(TextOf(w.run.generated.value)));
    CurrentAfterPost(w.past, post);
    PostKeepsMaySave(w.past, post, w.run);
    w.Record(post);
    var reply: Reply<string> := Ask();
    match reply {
      case Error(message) => return Threw(message);
      case Crash => return Crashed;
      case Answer(ts) =>
        MaySaveParent(w.past, w.run, ts);
        w.run := w.run.(slack := w.run.slack.(parentTs := Some(ts)));
        MaySaveUnguarded(w.past, w.run, w.run.(status := Posting));
        w.run := w.run.(status := Posting);
        s := w.SaveRun();
    }
  }

  lemma CurrentAfterPost(h: History, e: Event)
    requires IsPost(e)
    ensures After(h, e).current == h.current
  {
  }

  /** Post one chunk that is not recorded as posted, and record it. */
  method PostChunk(w: RunStore, index: nat) returns (s: Signal)
    requires w.Working() && Synced(w) && w.run.github.Some? && w.run.slack.parentTs.Some?
    requires w.run.generated.Some? && w.run.destination.Some?
    requires index < |w.env.narrative(w.run.generated.value.body)| && index == |w.run.slack.posted|
    modifies w
    ensures w.Working()
    ensures s == Done ==> Synced(w) && w.run == old(w.run).(slack :=
      old(w.run.slack).(posted := old(w.run.slack.posted) + [index]))
  {
    hide MaySave, Coherent, Permitted, After, LogOk, HistoryOf;
    var chunks := w.env.narrative(w.run.generated.value.body);
    ChunkPermitted(w, index);
    ghost var post := ChunkPost(w.run.revision, ChunkKey(w.env.runId, w.run.revision, index),
      w.run.destination.value.channel, w.run.slack.parentTs.value, w.env.fileName, chunks[index], index, |chunks|);
    CurrentAfterPost(w.past, post);
    PostKeepsMaySave(w.past, post, w.run);
    w.Record(post);
    var reply: Reply<string> := Ask();
    if reply.Crash? { return Crashed; }
    if reply.Error? { return Threw(reply.message); }
    MaySavePosted(w.past, w.run);
    w.run := w.run.(slack := w.run.slack.(posted := w.run.slack.posted + [index]));
    s := w.SaveRun();
  }

  /** Post the chunks that no earlier delivery has recorded as posted, one save after each. */
  method PostChunks(w: RunStore) returns (s: Signal)
    requires w.Working() && Synced(w) && w.run.github.Some? && w.run.slack.parentTs.Some?
    requires w.run.generated.Some? && w.run.destination.Some?
    modifies w
    ensures w.Working()
    ensures s == Done ==> Synced(w) && FullyPosted(w.env, w.run)
  {
    hide MaySave, Coherent, LogOk, HistoryOf;
    var minutes := w.run.generated.value;
    var chunks := w.env.narrative(minutes.body);
    for index := 0 to |chunks|
      invariant w.Working() && Synced(w) && w.run.github.Some?
      invariant w.run.slack.parentTs.Some? && w.run.generated == Some(minutes) && w.run.destination.Some?
      invariant forall i :: 0 <= i < index ==> i in w.run.slack.posted
    {
      if index in w.run.slack.posted { continue; }
      NextIsCount(w.past, w.run, index);
      s := PostChunk(w, index);
      if s != Done { return; }
    }
    s := Done;
  }

  /** The recorded indexes are those below their number. */
  lemma PostedArePrefix(r: Run, i: nat)
    requires WellFormed(r)
    ensures i in r.slack.posted <==> i < |r.slack.posted|
  {
    var posted := r.slack.posted;
    if i in posted {
      var k :| 0 <= k < |posted| && posted[k] == i;
      assert posted[k] == k;
    }
    if i < |posted| {
      assert posted[i] == i;
    }
  }

  /** The first chunk not yet posted is the number of posted ones. */
  lemma NextIsCount(h: History, r: Run, index: nat)
    requires MaySave(h, r) && index !in r.slack.posted && forall i :: 0 <= i < index ==> i in r.slack.posted
    ensures index == |r.slack.posted|
  {
    PostedArePrefix(r, index);
    PostedArePrefix(r, |r.slack.posted|);
  }

  // ---- The delivery ----

  /** The parts that a record with GitHub records is known to have. */
  lemma PublishedParts(h: History, r: Run)
    requires MaySave(h, r) && r.github.Some?
    ensures r.generated.Some? && r.destination.Some? && r.context.Some?
  {
  }

  /** Publish what is not yet published; the body that failures of the delivery are caught around. */
  method Publish(w: RunStore, ports: Ports, reconcileBoard: bool) returns (s: Signal)
    requires w.Working() && w.run.destination.Some? && Synced(w)
    modifies w
    ensures w.Working() && (s == Done ==> w.durable == w.run && FullyPosted(w.env, w.run) && TasksSettled(w.run))
  {
    hide MaySave, Coherent, LogOk, HistoryOf;
    if w.run.slack.processingTs.None? {
      var reply: Reply<string> := Ask();
      if reply.Crash? { return Crashed; }
      if reply.Error? { return Threw(reply.message); }
      var next := w.run.(slack := w.run.slack.(processingTs := Some(reply.value)));
      MaySaveUnguarded(w.past, w.run, next);
      w.run := next;
      s := w.SaveRun();
      if s != Done { return; }
    }
    s := SaveToGitHub(w, ports);
    if s != Done { return; }
    var refreshed: Reply<bool> := Ask();
    if refreshed.Crash? { return Crashed; }
    if refreshed.Error? { return Threw(refreshed.message); }
    if w.run.generated.None? { return Threw("meeting_minutes_saved_output_missing"); }
    PublishedParts(w.past, w.run);
    if w.run.slack.parentTs.None? {
      s := PostParent(w);
      if s != Done { return; }
    }
    s := PostChunks(w);
    if s != Done { return; }
    s := Integrate(w, ports, Registration, reconcileBoard);
  }

  /** The destination metadata that may be refreshed from configuration while the target stays the same. */
  method RefreshDestination(w: RunStore, configured: Destination) returns (s: Signal)
    requires w.Working() && w.run == w.durable
    requires w.run.destination.Some? ==> SameDestination(w.run.destination.value, configured)
    modifies w
    ensures w.Working() && (s == Done ==> Synced(w) && w.run.status == old(w.run.status))
    ensures w.run.github == old(w.run.github)
    ensures w.run.generated == old(w.run.generated) || (w.run.generated.None? && w.run.github.None?)
    ensures s == Done && old(w.run.destination.Some?) ==>
      && w.run.destination == Some(old(w.run.destination.value).(
           organization := configured.organization, taskProjectCodes := configured.taskProjectCodes,
           taskBoardTargetId := configured.taskBoardTargetId,
           contextProject := if w.run.context.None? then configured.contextProject
                             else old(w.run.destination.value.contextProject)))
      && (w.run.context.Some? && w.run.github.None? ==>
            old(w.run.destination.value.contextProject) == configured.contextProject)
  {
    hide MaySave, Coherent, LogOk, HistoryOf;
    if w.run.destination.None? { return Done; }
    var current := w.run.destination.value;
    var projectChanged := current.contextProject != configured.contextProject;
    if projectChanged && w.run.context.Some? && w.run.github.None? {
      MaySaveDraft(w.past, w.run, w.run.destination, None, None);
      w.run := w.run.(context := None, generated := None);
    }
    s := Done;
    if current.organization != configured.organization || current.taskProjectCodes != configured.taskProjectCodes
       || current.taskBoardTargetId != configured.taskBoardTargetId || projectChanged {
      var refreshed := current.(
        organization := configured.organization, taskProjectCodes := configured.taskProjectCodes,
        contextProject := if w.run.context.None? then configured.contextProject else current.contextProject,
        taskBoardTargetId := configured.taskBoardTargetId);
      if w.run.github.None? {
        MaySaveDraft(w.past, w.run, Some(refreshed), w.run.context, w.run.generated);
      } else {
        PublishedParts(w.past, w.run);
        MaySaveRouting(w.past, w.run, refreshed, w.run.context.value);
      }
      w.run := w.run.(destination := Some(refreshed));
      s := w.SaveRun();
    }
  }

  predicate CaseAcceptable(selection: Selection, ports: Ports) {
    match selection.outcomeCaseId
    case None => !selection.adminAuthorized
    case Some(id) => ports.validCase(id) && selection.adminAuthorized
  }

  predicate ReceiptDelivered(r: Run) {
    r.receipt.Some? && r.receipt.value.status == Delivered
  }

  function WithCase(r: Run, caseId: Option<string>): Run {
    if r.outcomeCaseId.None? then r.(outcomeCaseId := caseId) else r
  }

  /** Declare an OutcomeCase, once, and only before a receipt has been delivered. */
  method DeclareCase(w: RunStore, ports: Ports, selection: Selection) returns (s: Signal)
    requires w.Working() && Synced(w)
    modifies w
    ensures w.Working() && (s == Done ==> w.run == WithCase(old(w.run), selection.outcomeCaseId) && Synced(w))
    ensures s == Done && selection.outcomeCaseId.Some? ==>
      && CaseAcceptable(selection, ports) && w.run.outcomeCaseId == selection.outcomeCaseId
      && (old(ReceiptDelivered(w.run)) ==> w.run == old(w.run))
  {
    hide MaySave, Coherent, LogOk, HistoryOf;
    if !CaseAcceptable(selection, ports) { return Threw("meeting_minutes_outcome_case_invalid"); }
    if w.run.outcomeCaseId.Some? && selection.outcomeCaseId.Some?
       && w.run.outcomeCaseId != selection.outcomeCaseId {
      return Threw("meeting_minutes_outcome_case_changed");
    }
    s := Done;
    if w.run.outcomeCaseId.None? && selection.outcomeCaseId.Some? {
      if ReceiptDelivered(w.run) {
        return Threw("meeting_minutes_outcome_case_receipt_delivered");
      }
      MaySaveCase(w.past, w.run, selection.outcomeCaseId);
      w.run := w.run.(outcomeCaseId := selection.outcomeCaseId);
      s := w.SaveRun();
    }
  }

  const PERSISTED_PLACEHOLDER := "meeting_minutes_persisted_placeholder_output"

  /** What the delivery does next with the record as it stands. */
  datatype Route = Publishing | Settled | TaskWork(startAt: TaskPart, reconcileBoard: bool)

  /** Drop a placeholder draft, or settle a run whose placeholder was already published. */
  method RejectPlaceholder(w: RunStore, ports: Ports) returns (s: Signal, settled: bool)
    requires w.Working() && Synced(w)
    modifies w
    ensures w.Working() && (s == Done ==> Synced(w))
    ensures old(w.run.generated.Some? && ports.isPlaceholder(w.run.generated.value) && w.run.github.Some?) <==> settled
    ensures settled && s == Done ==>
      && w.durable.status == Completed && w.durable.github == old(w.run.github)
      && w.durable.failure == Some(Failure("generated", PERSISTED_PLACEHOLDER))
    ensures s == Done && !settled ==> w.run.generated.Some? ==> !ports.isPlaceholder(w.run.generated.value)
    ensures w.run.status != old(w.run.status) ==> settled || w.run.status == Routed
  {
    hide MaySave, Coherent, LogOk, HistoryOf;
    s, settled := Done, false;
    if w.run.generated.Some? && ports.isPlaceholder(w.run.generated.value) {
      if w.run.github.None? {
        MaySaveDraft(w.past, w.run, w.run.destination, w.run.context, None);
        w.run := w.run.(generated := None);
        MaySaveUnguarded(w.past, w.run, w.run.(failure := None, status := Routed));
        w.run := w.run.(failure := None, status := Routed);
      } else {
        settled := true;
        var failure := Some(Failure("generated", PERSISTED_PLACEHOLDER));
        MaySaveUnguarded(w.past, w.run, w.run.(status := Completed, failure := failure));
        w.run := w.run.(status := Completed, failure := failure);
      }
      s := w.SaveRun();
    }
  }

  function NextRoute(r: Run, ports: Ports): Route {
    if r.status != Completed then Publishing
    else if r.tasks.Some? && r.tasks.value.failure.Some? && r.destination.Some? then
      TaskWork(r.tasks.value.failure.value.part, r.tasks.value.failure.value.part == Board)
    else if r.destination.Some? && ports.repairsBoard then TaskWork(Board, true)
    else Settled
  }

  predicate UnusableContext(r: Run, ports: Ports) {
    && r.github.None? && ports.mode == Required && r.context.Some?
    && (r.context.value.status == Partial || r.context.value.status == Unavailable)
  }

  predicate UnknownSource(r: Run) {
    && r.status == Failed && r.github.None? && r.failure.Some?
    && r.failure.value.message == "meeting_minutes_context_source_ref_unknown"
  }

  /** Drop the parts of an unpublished draft that the previous attempt showed to be unusable. */
  method DropUnusableDraft(w: RunStore, ports: Ports)
    requires w.Working() && Synced(w)
    modifies w
    ensures w.Working() && Synced(w) && w.durable == old(w.durable) && w.log == old(w.log)
    ensures w.run == old(w.run).(context := w.run.context, generated := w.run.generated)
    ensures w.run.context == if UnusableContext(old(w.run), ports) then None else old(w.run.context)
    ensures w.run.generated ==
      if UnusableContext(old(w.run), ports) || UnknownSource(old(w.run)) then None else old(w.run.generated)
  {
    hide MaySave, Coherent, LogOk, HistoryOf;
    if UnusableContext(w.run, ports) {
      MaySaveDraft(w.past, w.run, w.run.destination, None, None);
      w.run := w.run.(context := None, generated := None);
    }
    if UnknownSource(w.run) {
      MaySaveDraft(w.past, w.run, w.run.destination, w.run.context, None);
      w.run := w.run.(generated := None);
    }
  }

  function ResumedStatus(r: Run): Status {
    if r.status == Failed then
      if r.github.Some? then (if r.slack.parentTs.Some? then Posting else GitHubSaved)
      else if r.generated.Some? then Generated else Routed
    else if r.status == AwaitingDestination then Routed
    else r.status
  }

  lemma UnroutedIsUnpublished(h: History, r: Run)
    requires MaySave(h, r) && r.destination.None?
    ensures r.github.None?
  {
  }

  lemma CompletedIsPublished(h: History, r: Run)
    requires MaySave(h, r) && r.status == Completed
    ensures r.github.Some?
  {
  }

  /** Reopen the record for publishing under the chosen destination. */
  method Reopen(w: RunStore, ports: Ports, configured: Destination, userId: string) returns (s: Signal)
    requires w.Working() && Synced(w)
    modifies w
    ensures w.Working()
    ensures s == Done ==>
      && w.durable == w.run && w.run.failure.None? && w.run.status != Failed && w.run.status != AwaitingDestination
      && w.run.destination == Some(if old(w.run.destination).Some? then old(w.run.destination.value) else configured)
      && w.run.approvedBy == Some(if old(w.run.approvedBy).Some? then old(w.run.approvedBy.value) else userId)
      && w.run.github == old(w.run.github) && w.run.slack == old(w.run.slack)
  {
    hide MaySave, Coherent, LogOk, HistoryOf;
    DropUnusableDraft(w, ports);
    if w.run.destination.None? {
      UnroutedIsUnpublished(w.past, w.run);
      MaySaveDraft(w.past, w.run, Some(configured), w.run.context, w.run.generated);
      w.run := w.run.(destination := Some(configured));
    }
    var next := w.run.(approvedBy := if w.run.approvedBy.Some? then w.run.approvedBy else Some(userId),
                       status := ResumedStatus(w.run), failure := None);
    MaySaveUnguarded(w.past, w.run, next);
    w.run := next;
    s := w.SaveRun();
  }

  /** Persist the failure of a delivery; its own failure is what the caller sees then. */
  method RecordFailure(w: RunStore, message: string) returns (s: Signal)
    requires w.Working()
    modifies w
    ensures w.Working() && s != Done
    ensures w.run.status == Failed && w.run.failure == Some(Failure(StatusName(old(w.run.status)), message))
    ensures w.run == old(w.run).(status := Failed, failure := w.run.failure, stage := w.run.stage, code := w.run.code)
    ensures w.durable == old(w.durable) || w.durable == w.run
  {
    hide MaySave, Coherent, LogOk, HistoryOf;
    var classified: Reply<(Option<Stage>, Option<string>)> := Ask();
    var (stage, code) := if classified.Answer? then classified.value else (w.run.stage, w.run.code);
    var next := w.run.(status := Failed, failure := Some(Failure(StatusName(w.run.status), message)),
                       stage := stage, code := code);
    MaySaveUnguarded(w.past, w.run, next);
    w.run := next;
    s := w.SaveRun();
    if s == Done { s := Threw(message); }
  }

  function StatusName(status: Status): string {
    match status
    case AwaitingDestination => "awaiting_destination"
    case Routed => "routed"
    case Generated => "generated"
    case GitHubSaved => "github_saved"
    case Posting => "posting"
    case Completed => "completed"
    case Failed => "failed"
  }

  predicate PlaceholderPublished(r: Run, ports: Ports) {
    r.github.Some? && r.generated.Some? && ports.isPlaceholder(r.generated.value)
  }

  /** What a selection changes of the record before it is known whether anything is left to publish. */
  method Admit(w: RunStore, ports: Ports, selection: Selection, configured: Destination)
    returns (s: Signal, settled: bool)
    requires w.Working() && w.run == w.durable
    requires w.run.destination.Some? ==> SameDestination(w.run.destination.value, configured)
    modifies w
    ensures w.Working() && (s == Done ==> Synced(w))
    ensures s == Done ==> (settled <==> old(PlaceholderPublished(w.run, ports)))
    ensures s == Done && settled ==>
      w.durable.status == Completed && w.durable.failure == Some(Failure("generated", PERSISTED_PLACEHOLDER))
    ensures s == Done && !settled && old(w.run.status) != Completed ==> w.run.status != Completed
  {
    hide MaySave, Coherent, LogOk, HistoryOf;
    settled := false;
    s := RefreshDestination(w, configured);
    if s != Done { return; }
    if w.run.approvedBy.Some? && w.run.approvedBy.value != selection.userId {
      return Threw("meeting_minutes_approver_changed"), false;
    }
    s := DeclareCase(w, ports, selection);
    if s != Done { return; }
    s, settled := RejectPlaceholder(w, ports);
  }

  /** Task work of a run that was published before. */
  method WorkOnTasks(w: RunStore, ports: Ports, startAt: TaskPart, reconcileBoard: bool) returns (s: Signal)
    requires w.Working() && Synced(w) && w.run.status == Completed
    modifies w
    ensures w.Working()
  {
    hide MaySave, Coherent, LogOk, HistoryOf;
    if TasksOf(w.run).failure.Some? {
      var refreshed: Reply<bool> := Ask();
      if refreshed.Crash? { return Crashed; }
      if refreshed.Error? { return Threw(refreshed.message); }
    }
    CompletedIsPublished(w.past, w.run);
    s := Integrate(w, ports, startAt, reconcileBoard);
  }

  /** Reopen and publish; a failure to publish is recorded. */
  method PublishAnew(w: RunStore, ports: Ports, configured: Destination, userId: string, resumed: bool)
    returns (s: Signal)
    requires w.Working() && Synced(w)
    modifies w
    ensures w.Working()
    ensures s == Done ==> FullyPosted(w.env, w.durable) && TasksSettled(w.durable)
  {
    hide MaySave, Coherent, LogOk, HistoryOf, FullyPosted, TasksSettled;
    s := Reopen(w, ports, configured, userId);
    if s != Done { return; }
    s := Publish(w, ports, resumed);
    if s.Threw? { s := RecordFailure(w, s.message); }
  }

  /**
   * One delivery of a selection. Whatever happens in it, every event was permitted (`Valid`); when it
   * ends well on a run that was not already completed, the whole narrative is durably posted, the run is
   * completed, and every drafted task is registered or what is missing is noted.
   */
  method Resume(w: RunStore, ports: Ports, selection: Selection) returns (s: Signal)
    requires w.Valid()
    modifies w
    ensures w.Valid() && (s == Done ==> w.Working())
    ensures s == Done && old(w.durable.status) != Completed
      && !old(w.durable.generated.Some? && ports.isPlaceholder(w.durable.generated.value))
      ==> FullyPosted(w.env, w.durable) && TasksSettled(w.durable)
    ensures s == Done && old(PlaceholderPublished(w.durable, ports))
      ==> w.durable.status == Completed && w.durable.failure == Some(Failure("generated", PERSISTED_PLACEHOLDER))
  {
    hide MaySave, Coherent, LogOk, HistoryOf, FullyPosted, TasksSettled;
    if !ports.destinationsValid { return Threw("meeting_minutes_destinations_invalid"); }
    w.Load();
    var resumed := w.run.github.Some? && w.run.slack.parentTs.Some?;
    if w.source != selection.source { return Threw("meeting_minutes_selection_boundary_mismatch"); }
    var found := FindDestination(ports.destinations, selection.destinationId);
    if found.None? { return Threw("meeting_minutes_destination_forbidden"); }
    if w.run.destination.Some? && !SameDestination(w.run.destination.value, found.value) {
      return Threw("meeting_minutes_destination_changed");
    }
    var settled;
    s, settled := Admit(w, ports, selection, found.value);
    if s != Done || settled { return; }
    match NextRoute(w.run, ports) {
      case Settled =>
      case TaskWork(startAt, reconcileBoard) => s := WorkOnTasks(w, ports, startAt, reconcileBoard);
      case Publishing => s := PublishAnew(w, ports, found.value, selection.userId, resumed);
    }
  }
}
