/** `redoMeetingMinutesRun`: take back everything a revision published, then open the next revision. */
module MinutesRedo {
  import opened Options
  import opened MinutesRun
  import opened MinutesLog
  import opened MinutesStore
  import opened MinutesContext
  import opened MinutesTasks

  datatype RedoPorts = RedoPorts(destinationsValid: bool, createsTasks: bool, slackRejected: string -> bool)

  datatype Command = Command(source: Source, revision: nat)

  /** The original creation is on record as refused before anything was created. */
  predicate CreateNotReady(f: TaskFailure) {
    f.point == Some(TaskCreation) && f.status == Some(503) && f.code == Some(NOT_READY)
  }

  /** The creation at hand is refused in the same way. */
  predicate RefusedUnchanged(error: ApiError) {
    error.status == Some(503) && error.code == Some(NOT_READY)
  }

  /** The record of the next revision, waiting for a destination. */
  function NextRun(r: Run, selectionTs: string): Run {
    r.(status := AwaitingDestination, revision := r.revision + 1,
       destination := None, approvedBy := None, context := None, generated := None, github := None,
       tasks := None, failure := None, redo := None, statusProjection := None, readback := None, receipt := None,
       slack := NO_SLACK.(selectionTs := Some(selectionTs)))
  }

  /** Nothing is left of the revision before but the run's identity: its transcript, case and arm. */
  ghost predicate AwaitsDestination(r: Run) {
    && Pristine(r) && r.status == AwaitingDestination && r.approvedBy.None? && r.tasks.None? && r.failure.None?
    && r.statusProjection.None? && r.readback.None?
    && r.slack == NO_SLACK.(selectionTs := r.slack.selectionTs) && r.slack.selectionTs.Some?
  }

  /** Same checkpoints, possibly another recorded failure. */
  ghost predicate SameCheckpoints(a: Option<Redo>, b: Option<Redo>) {
    && a.Some? && b.Some?
    && a.value.revision == b.value.revision && a.value.githubDeleted == b.value.githubDeleted
    && a.value.deletedTaskIds == b.value.deletedTaskIds && a.value.retracted == b.value.retracted
  }

  /** The durable record carries the clean-up state of the working copy. */
  ghost predicate CleanupSynced(w: RunStore)
    reads w
  {
    && PublishSynced(w) && w.durable.tasks == w.run.tasks && w.durable.lifecycle == w.run.lifecycle
    && SameCheckpoints(w.durable.redo, w.run.redo)
  }

  // ---- Which redo steps keep the record writable ----

  lemma MaySaveRedoStart(h: History, r: Run)
    requires MaySave(h, r) && r.revision <= h.current && r.github.Some? && r.redo.None?
    ensures MaySave(h, r.(redo := Some(Redo(r.revision, false, [], false, None))))
  {
  }

  lemma RedoIsOfItsRevision(h: History, r: Run)
    requires MaySave(h, r) && r.redo.Some?
    ensures r.redo.value.revision == r.revision
  {
  }

  lemma MaySaveRedoFailure(h: History, r: Run, failure: Option<string>)
    requires MaySave(h, r) && r.revision <= h.current && r.redo.Some?
    ensures MaySave(h, r.(redo := Some(r.redo.value.(failure := failure))))
  {
  }

  lemma MaySaveGitHubDeleted(h: History, r: Run)
    requires MaySave(h, r) && r.revision <= h.current && r.redo.Some? && r.github.Some?
    requires GitHubDeleted(r.revision, r.github.value) in h.acknowledged
    ensures MaySave(h, r.(redo := Some(r.redo.value.(githubDeleted := true))))
  {
  }

  lemma MaySaveTaskDeleted(h: History, r: Run, id: string)
    requires MaySave(h, r) && r.revision <= h.current && r.redo.Some?
    requires TaskDeleted(r.revision, id) in h.acknowledged
    ensures MaySave(h, r.(redo := Some(r.redo.value.(deletedTaskIds := r.redo.value.deletedTaskIds + [id]))))
  {
  }

  lemma MaySaveRetracted(h: History, r: Run)
    requires MaySave(h, r) && r.revision <= h.current && r.redo.Some? && r.slack.parentTs.Some?
    requires Retracted(r.revision, r.slack.parentTs.value) in h.acknowledged
    ensures MaySave(h, r.(redo := Some(r.redo.value.(retracted := true))))
  {
  }

  ghost predicate CleanupEvent(e: Event) {
    e.GitHubDelete? || e.GitHubDeleted? || e.TaskDelete? || e.TaskDeleted? || e.Retract? || e.Retracted?
  }

  lemma CleanupKeepsMaySave(h: History, e: Event, r: Run)
    requires MaySave(h, r) && CleanupEvent(e)
    ensures MaySave(After(h, e), r) && After(h, e).current == h.current
    ensures e.GitHubDeleted? || e.TaskDeleted? || e.Retracted? ==> e in After(h, e).acknowledged
  {
  }

  /** A clean-up that the record does not carry yet may be attempted, and any may be acknowledged. */
  lemma CleanupPermitted(w: RunStore, e: Event)
    requires w.Working() && CleanupSynced(w) && CleanupEvent(e)
    requires e.GitHubDelete? ==>
      e.revision == w.run.revision && w.run.github == Some(e.records) && !w.run.redo.value.githubDeleted
    requires e.TaskDelete? ==> e.revision == w.run.revision && e.taskId !in w.run.redo.value.deletedTaskIds
    requires e.Retract? ==>
      e.revision == w.run.revision && w.run.slack.parentTs == Some(e.parentTs) && !w.run.redo.value.retracted
    ensures Permitted(w.env, w.past, e)
  {
  }

  /** One clean-up effect: attempted, answered, and logged on both sides. */
  method Effect(w: RunStore, ghost attempt: Event, ghost done: Event) returns (s: Signal)
    requires w.Working() && CleanupSynced(w) && CleanupEvent(attempt) && Permitted(w.env, w.past, attempt)
    requires done.GitHubDeleted? || done.TaskDeleted? || done.Retracted?
    modifies w`log, w`past
    ensures w.Working() && w.past.current == old(w.past.current)
    ensures s == Done ==> done in w.past.acknowledged
  {
    hide MaySave, Coherent, After, Permitted, LogOk, HistoryOf;
    CleanupKeepsMaySave(w.past, attempt, w.run);
    w.Record(attempt);
    var reply: Reply<bool> := Ask();
    if reply.Crash? { return Crashed; }
    if reply.Error? { return Threw(reply.message); }
    CleanupKeepsMaySave(w.past, done, w.run);
    CleanupPermitted(w, done);
    w.Record(done);
    s := Done;
  }

  lemma MaySaveNext(w: RunStore, ts: string)
    requires w.Working() && CleanupSynced(w) && Cleaned(w.run)
    ensures MaySave(w.past, NextRun(w.run, ts))
  {
    var next := NextRun(w.run, ts);
    assert Cleaned(w.durable);
    assert next.revision in w.past.latest ==> Pristine(w.past.latest[next.revision]);
  }

  /** If the next revision was written but its save was reported as failed, the old record may be written back. */
  lemma MaySaveBack(h: History, r: Run, ts: string)
    requires MaySave(h, r) && r.revision == h.current && h.Has(h.current) && r.lifecycle == Durable(h).lifecycle
    ensures MaySave(After(h, Saved(NextRun(r, ts))), r)
    ensures r.revision <= After(h, Saved(NextRun(r, ts))).current
  {
  }

  // ---- The clean-up ----

  /**
   * Nothing was pending; or the pending task is now among the registered ones; or its creation is on record as
   * refused before anything was created.
   */
  ghost predicate PendingSettled(before: Tasks, after: Tasks) {
    match before.pending
    case None => after == before
    case Some(pending) =>
      && after == before.(pending := None, registered := after.registered)
      && ((exists id :: id != "" && after.registered == before.registered + [RecoveredTask(pending, id)])
          || (&& after.registered == before.registered && before.failure.Some?
              && before.failure.value.index == pending.index && CreateNotReady(before.failure.value)))
  }

  /** A task that a pending creation turned out to have created. */
  function RecoveredTask(pending: PendingTask, id: string): Task {
    Task(pending.index, pending.input.title, id, Unset, Some(pending.input.projectCodes), None, None)
  }

  lemma RefusalPermitted(w: RunStore, index: nat)
    requires w.Working() && PublishSynced(w)
    ensures Permitted(w.env, w.past, TaskRefused(w.run.revision, index))
  {
    WorkingIsThere(w);
  }

  lemma WorkingIsThere(w: RunStore)
    requires w.Working() && PublishSynced(w)
    ensures w.past.Has(w.run.revision)
  {
  }

  lemma RefusalKeepsMaySave(h: History, r: Run, index: nat)
    requires MaySave(h, r)
    ensures var h' := After(h, TaskRefused(r.revision, index));
      MaySave(h', r) && h'.current == h.current && (r.revision, index) !in h'.asked
  {
    hide Evolves, WellFormed, Pristine, Cleaned, IsRegistered;
  }

  /** What was not created is pending no longer. */
  lemma MaySaveRefused(h: History, r: Run)
    requires MaySave(h, r) && r.revision <= h.current && r.tasks.Some? && r.tasks.value.pending.Some?
    requires Coherent(h) && (r.revision, r.tasks.value.pending.value.index) !in h.asked
    ensures MaySave(h, r.(tasks := Some(r.tasks.value.(pending := None))))
  {
    var t := r.tasks.value.(pending := None);
    assert Accounted(h, r.(tasks := Some(t))) by {
      hide WellFormed, MaySave, IsRegistered;
    }
    MaySaveTasks(h, r, t);
  }

  /** Note a refusal, and that nothing is pending. */
  method DropPending(w: RunStore) returns (s: Signal)
    requires w.Working() && CleanupSynced(w) && w.run.tasks.Some? && w.run.tasks.value.pending.Some?
    modifies w
    ensures w.Working() && w.run == old(w.run).(tasks := Some(old(w.run.tasks.value).(pending := None)))
    ensures s == Done ==> w.durable == w.run
  {
    hide MaySave, Coherent, After, Permitted, LogOk, HistoryOf, Accounted;
    ghost var index := w.run.tasks.value.pending.value.index;
    RefusalPermitted(w, index);
    RefusalKeepsMaySave(w.past, w.run, index);
    w.Record(TaskRefused(w.run.revision, index));
    MaySaveRefused(w.past, w.run);
    w.run := w.run.(tasks := Some(w.run.tasks.value.(pending := None)));
    s := w.SaveRun();
  }

  /** A task creation that was pending is completed, or known never to have happened, before tasks are deleted. */
  method RecoverPendingTask(w: RunStore, ports: RedoPorts) returns (s: Signal)
    requires w.Working() && CleanupSynced(w)
    modifies w
    ensures w.Working()
    ensures w.run == old(w.run).(tasks := w.run.tasks)
    ensures s == Done ==>
      && CleanupSynced(w)
      && (w.run.tasks.Some? ==> w.run.tasks.value.pending.None?)
      && (old(w.run.tasks).None? ==> w.run.tasks.None?)
      && (old(w.run.tasks).Some? ==> w.run.tasks.Some? && PendingSettled(old(w.run.tasks.value), w.run.tasks.value))
  {
    hide MaySave, Coherent, After, Permitted, LogOk, HistoryOf, TasksFit;
    if w.run.tasks.None? || w.run.tasks.value.pending.None? { return Done; }
    TasksArePublished(w.past, w.run);
    var tasks := w.run.tasks.value;
    var pending := tasks.pending.value;
    if IsRegistered(tasks.registered, pending.index) {
      return Threw("meeting_minutes_redo_task_registration_pending_ambiguous");
    }
    if !ports.createsTasks { return Threw("meeting_minutes_redo_task_registration_recovery_unavailable"); }
    var reply := RequestCreation(w, pending);
    match reply {
      case Lost => return Crashed;
      case Got(created) =>
        if created.id == "" { return Threw("meeting_minutes_redo_task_invalid_response"); }
        RecoveredFits(tasks, created.id, |w.run.generated.value.tasks|);
        SetTasks(w, tasks.(registered := tasks.registered + [RecoveredTask(pending, created.id)], pending := None));
        s := w.SaveRun();
      case Refused(error) =>
        if !RefusedUnchanged(error) || tasks.failure.None? || tasks.failure.value.index != pending.index
           || !CreateNotReady(tasks.failure.value) {
          return Threw(error.message);
        }
        s := DropPending(w);
    }
  }

  lemma TasksArePublished(h: History, r: Run)
    requires MaySave(h, r) && r.tasks.Some?
    ensures r.github.Some? && r.generated.Some? && TasksFit(r.tasks.value, |r.generated.value.tasks|)
  {
  }

  lemma RecoveredFits(t: Tasks, id: string, count: nat)
    requires TasksFit(t, count) && t.pending.Some? && !IsRegistered(t.registered, t.pending.value.index)
    ensures var t' := t.(registered := t.registered + [RecoveredTask(t.pending.value, id)], pending := None);
      TasksFit(t', count) && RemembersTasks(Some(t), t')
  {
    AddedTask(t, RecoveredTask(t.pending.value, id), count);
  }

  method DeleteFromGitHub(w: RunStore) returns (s: Signal)
    requires w.Working() && CleanupSynced(w) && w.run.github.Some?
    modifies w
    ensures w.Working()
    ensures s == Done ==>
      && CleanupSynced(w) && w.run.github == old(w.run.github) && w.run.revision == old(w.run.revision)
      && w.run.tasks == old(w.run.tasks) && w.run.redo.value.githubDeleted
    ensures w.run.redo.Some?
  {
    hide MaySave, Coherent, Permitted, LogOk, HistoryOf;
    if w.run.redo.value.githubDeleted { return Done; }
    ghost var attempt := GitHubDelete(w.run.revision, w.run.github.value);
    ghost var done := GitHubDeleted(w.run.revision, w.run.github.value);
    CleanupPermitted(w, attempt);
    s := Effect(w, attempt, done);
    if s != Done { return; }
    MaySaveGitHubDeleted(w.past, w.run);
    w.run := w.run.(redo := Some(w.run.redo.value.(githubDeleted := true)));
    s := w.SaveRun();
  }

  method DeleteTask(w: RunStore, id: string) returns (s: Signal)
    requires w.Working() && CleanupSynced(w) && id !in w.run.redo.value.deletedTaskIds
    modifies w
    ensures w.Working()
    ensures s == Done ==>
      && CleanupSynced(w) && w.run == old(w.run).(redo := w.run.redo)
      && w.run.redo == Some(old(w.run.redo.value).(deletedTaskIds := old(w.run.redo.value.deletedTaskIds) + [id]))
    ensures w.run.redo.Some?
  {
    hide MaySave, Coherent, Permitted, LogOk, HistoryOf;
    ghost var attempt, done := TaskDelete(w.run.revision, id), TaskDeleted(w.run.revision, id);
    CleanupPermitted(w, attempt);
    s := Effect(w, attempt, done);
    if s != Done { return; }
    MaySaveTaskDeleted(w.past, w.run, id);
    w.run := w.run.(redo := Some(w.run.redo.value.(deletedTaskIds := w.run.redo.value.deletedTaskIds + [id])));
    s := w.SaveRun();
  }

  method DeleteTasks(w: RunStore) returns (s: Signal)
    requires w.Working() && CleanupSynced(w) && w.run.tasks.Some?
    modifies w
    ensures w.Working()
    ensures s == Done ==>
      && CleanupSynced(w) && w.run == old(w.run).(redo := w.run.redo)
      && w.run.redo.value.githubDeleted == old(w.run.redo.value.githubDeleted)
      && forall i :: 0 <= i < |w.run.tasks.value.registered| && InScope(w.run.tasks.value.registered[i]) ==>
           w.run.tasks.value.registered[i].taskId in w.run.redo.value.deletedTaskIds
    ensures w.run.redo.Some?
  {
    hide MaySave, Coherent, LogOk, HistoryOf;
    ghost var start := w.run;
    var registered := w.run.tasks.value.registered;
    for k := 0 to |registered|
      invariant w.Working() && CleanupSynced(w) && w.run == start.(redo := w.run.redo)
      invariant w.run.redo.value.githubDeleted == start.redo.value.githubDeleted
      invariant forall i :: 0 <= i < k && InScope(registered[i]) ==>
        registered[i].taskId in w.run.redo.value.deletedTaskIds
    {
      var task := registered[k];
      if task.state != Unset && task.state != Registered { continue; }
      if task.taskId in w.run.redo.value.deletedTaskIds { continue; }
      s := DeleteTask(w, task.taskId);
      if s != Done { return; }
    }
    s := Done;
  }

  method RetractShared(w: RunStore) returns (s: Signal)
    requires w.Working() && CleanupSynced(w)
    modifies w
    ensures w.Working()
    ensures s == Done ==>
      && CleanupSynced(w) && w.run.tasks == old(w.run.tasks) && w.run.github == old(w.run.github)
      && w.run.slack == old(w.run.slack) && w.run.revision == old(w.run.revision)
      && w.run.redo.value.githubDeleted == old(w.run.redo.value.githubDeleted)
      && w.run.redo.value.deletedTaskIds == old(w.run.redo.value.deletedTaskIds)
      && (w.run.slack.parentTs.Some? ==> w.run.redo.value.retracted)
    ensures w.run.redo.Some?
  {
    hide MaySave, Coherent, Permitted, LogOk, HistoryOf;
    if w.run.slack.parentTs.None? || w.run.redo.value.retracted { return Done; }
    var ts := w.run.slack.parentTs.value;
    ghost var attempt, done := Retract(w.run.revision, ts), Retracted(w.run.revision, ts);
    CleanupPermitted(w, attempt);
    s := Effect(w, attempt, done);
    if s != Done { return; }
    MaySaveRetracted(w.past, w.run);
    w.run := w.run.(redo := Some(w.run.redo.value.(retracted := true)));
    s := w.SaveRun();
  }

  method CleanUp(w: RunStore, ports: RedoPorts) returns (s: Signal)
    requires w.Working() && CleanupSynced(w) && w.run.github.Some?
    modifies w
    ensures w.Working()
    ensures s == Done ==> CleanupSynced(w) && Cleaned(w.run) && w.run.revision == old(w.run.revision)
    ensures s != Done ==> w.run.redo.Some?
  {
    hide MaySave, Coherent, LogOk, HistoryOf;
    s := RecoverPendingTask(w, ports);
    if s != Done { return; }
    s := DeleteFromGitHub(w);
    if s != Done { return; }
    if w.run.tasks.Some? {
      s := DeleteTasks(w);
      if s != Done { return; }
    }
    s := RetractShared(w);
  }

  predicate RedoAvailable(r: Run, ports: RedoPorts) {
    && (r.status == Completed
        || (r.status == Failed && r.stage == Some(SlackPublish)
            && r.failure.Some? && ports.slackRejected(r.failure.value.message)))
    && r.destination.Some? && r.github.Some? && r.slack.processingTs.Some?
  }

  method BeginRedo(w: RunStore) returns (s: Signal)
    requires w.Working() && w.durable == w.run && w.run.github.Some?
    modifies w
    ensures w.Working()
    ensures s == Done ==> CleanupSynced(w) && w.run.github.Some? && w.run.revision == old(w.run.revision)
  {
    hide MaySave, Coherent, LogOk, HistoryOf;
    s := Done;
    if w.run.redo.Some? { RedoIsOfItsRevision(w.past, w.run); }
    if w.run.redo.None? || w.run.redo.value.revision != w.run.revision {
      MaySaveRedoStart(w.past, w.run);
      w.run := w.run.(redo := Some(Redo(w.run.revision, false, [], false, None)));
      s := w.SaveRun();
    }
  }

  /** Ask for a destination again and replace the record by that of the next revision. */
  method OpenNextRevision(w: RunStore) returns (s: Signal)
    requires w.Working() && CleanupSynced(w) && Cleaned(w.run)
    modifies w
    ensures w.Valid()
    ensures s == Done ==>
      && AwaitsDestination(w.durable) && w.durable.revision == old(w.run.revision) + 1
      && w.durable.transcriptSha == old(w.run.transcriptSha) && w.durable.lifecycle == old(w.run.lifecycle)
      && w.durable.outcomeCaseId == old(w.run.outcomeCaseId) && w.durable.receiptRevision == old(w.run.receiptRevision)
    ensures s != Done ==> w.Working() && w.run == old(w.run)
  {
    hide MaySave, Coherent, LogOk, HistoryOf;
    var reply: Reply<string> := Ask();
    if reply.Crash? { return Crashed; }
    if reply.Error? { return Threw(reply.message); }
    var next := NextRun(w.run, reply.value);
    MaySaveNext(w, reply.value);
    WorkingIsCurrent(w);
    MaySaveBack(w.past, w.run, reply.value);
    s := w.Save(next);
    if s == Done { w.run := next; }
  }

  lemma WorkingIsCurrent(w: RunStore)
    requires w.Working() && CleanupSynced(w)
    ensures w.run.revision == w.past.current && w.past.Has(w.past.current)
    ensures w.run.lifecycle == Durable(w.past).lifecycle
  {
  }

  method RecordRedoFailure(w: RunStore, message: string) returns (s: Signal)
    requires w.Working() && w.run.redo.Some?
    modifies w
    ensures w.Working() && s != Done
  {
    hide MaySave, Coherent, LogOk, HistoryOf;
    MaySaveRedoFailure(w.past, w.run, Some(message));
    w.run := w.run.(redo := Some(w.run.redo.value.(failure := Some(message))));
    s := w.SaveRun();
    if s == Done {
      var shown: Reply<bool> := Ask();
      s := if shown.Crash? then Crashed else Threw(message);
    }
  }

  /** The guarded part of a redo: everything whose failure is recorded on the run. */
  method TakeBack(w: RunStore, ports: RedoPorts) returns (s: Signal)
    requires w.Working() && CleanupSynced(w) && w.run.github.Some?
    modifies w
    ensures w.Valid()
    ensures s == Done ==> AwaitsDestination(w.durable) && w.durable.revision == old(w.run.revision) + 1
    ensures s != Done ==> w.Working() && w.run.redo.Some?
  {
    hide MaySave, Coherent, LogOk, HistoryOf;
    ghost var start := w.run.revision;
    MaySaveRedoFailure(w.past, w.run, None);
    w.run := w.run.(redo := Some(w.run.redo.value.(failure := None)));
    s := CleanUp(w, ports);
    if s != Done { return; }
    s := OpenNextRevision(w);
  }

  /**
   * One delivery of a redo command. A command for another revision writes nothing; one that ends well
   * leaves a durable record of the next revision with nothing published.
   */
  method HandleRedo(w: RunStore, ports: RedoPorts, command: Command) returns (s: Signal)
    requires w.Valid()
    modifies w
    ensures w.Valid()
    ensures command.revision != old(w.durable.revision) ==>
      w.durable == old(w.durable) && (w.log == old(w.log) || w.log == old(w.log) + [Begin])
    ensures s == Done && command.revision == old(w.durable.revision) ==>
      && RedoAvailable(old(w.durable), ports)
      && AwaitsDestination(w.durable) && w.durable.revision == command.revision + 1
    ensures !RedoAvailable(old(w.durable), ports) || w.source != command.source ==> w.durable == old(w.durable)
  {
    hide MaySave, Coherent, LogOk, HistoryOf;
    if !ports.destinationsValid { return Threw("meeting_minutes_destinations_invalid"); }
    w.Load();
    if w.source != command.source { return Threw("meeting_minutes_redo_boundary_mismatch"); }
    if command.revision != w.run.revision {
      var shown: Reply<bool> := Ask();
      s := match shown
        case Answer(_) => Done
        case Error(message) => Threw(message)
        case Crash => Crashed;
      return;
    }
    if !RedoAvailable(w.run, ports) { return Threw("meeting_minutes_redo_not_available"); }
    s := BeginRedo(w);
    if s != Done { return; }
    s := TakeBack(w, ports);
    if s.Threw? { s := RecordRedoFailure(w, s.message); }
  }
}
