/**
 * `resumeMeetingMinutesTaskIntegration`: the drafted tasks of published minutes registered one by one, the task
 * board repaired and the task card posted, each noted on the record before it is begun.
 */
module MinutesTasks {
  import opened Options
  import opened Decimal
  import opened MinutesRun
  import opened MinutesLog
  import opened MinutesStore
  import opened MinutesContext

  /** How a step of the integration ends: it goes on, it throws, or the process is gone. */
  datatype Step = Went | Broke(error: ApiError) | Gone

  const REGISTRATION_FAILED := "meeting_minutes_task_registration_failed"
  const INVALID_RESPONSE := "meeting_minutes_task_invalid_response"

  function StepOf(s: Signal): Step {
    match s
    case Done => Went
    case Threw(message) => Broke(ApiError(message, None, None))
    case Crashed => Gone
  }

  function PartName(part: TaskPart): string {
    match part
    case Registration => "task_registration"
    case Board => "task_board"
    case Card => "task_card"
  }

  // ---- Task lists ----

  ghost predicate KeepsRegistered(before: Tasks, after: Tasks) {
    forall i: nat :: IsRegistered(before.registered, i) ==> IsRegistered(after.registered, i)
  }

  ghost predicate RegisteredBelow(t: Tasks, n: nat) {
    forall i: nat :: i < n ==> IsRegistered(t.registered, i)
  }

  lemma AddedTask(t: Tasks, task: Task, count: nat)
    requires TasksFit(t, count) && task.index < count && !IsRegistered(t.registered, task.index)
    ensures var t' := t.(registered := t.registered + [task]);
      && TasksFit(t', count) && TasksFit(t'.(pending := None), count)
      && forall i: nat :: IsRegistered(t'.registered, i) <==> IsRegistered(t.registered, i) || i == task.index
  {
    var t' := t.(registered := t.registered + [task]);
    forall i: nat ensures IsRegistered(t'.registered, i) <==> IsRegistered(t.registered, i) || i == task.index {
      if IsRegistered(t.registered, i) {
        var k :| 0 <= k < |t.registered| && t.registered[k].index == i;
        assert t'.registered[k].index == i;
      }
      assert t'.registered[|t.registered|] == task;
    }
  }

  lemma PendingFits(t: Tasks, pending: PendingTask, count: nat)
    requires TasksFit(t, count) && pending.index < count && RegisteredBelow(t, pending.index)
    ensures TasksFit(t.(pending := Some(pending)), count)
  {
  }

  /** A pending creation stands at the first draft without a task, or was overtaken. */
  lemma PendingIsNotAhead(t: Tasks, index: nat, count: nat)
    requires TasksFit(t, count) && t.pending.Some? && !IsRegistered(t.registered, index)
    ensures t.pending.value.index <= index
  {
  }

  lemma TasksOfFit(h: History, r: Run)
    requires MaySave(h, r) && r.github.Some? && r.generated.Some?
    ensures TasksFit(TasksOf(r), |r.generated.value.tasks|)
  {
  }

  lemma PublishedIsGenerated(h: History, r: Run)
    requires MaySave(h, r) && r.github.Some?
    ensures r.generated.Some? && r.destination.Some? && r.context.Some?
  {
  }

  ghost predicate OnlyTasks(r: Run, r': Run) {
    r' == r.(tasks := r'.tasks)
  }

  method SetTasks(w: RunStore, tasks: Tasks)
    requires w.Working() && w.run.github.Some? && w.run.generated.Some?
    requires TasksFit(tasks, |w.run.generated.value.tasks|) && RemembersTasks(w.run.tasks, tasks)
    modifies w`run
    ensures w.Working() && w.run == old(w.run).(tasks := Some(tasks))
  {
    hide TasksFit, RemembersTasks, Accounted, LogOk, HistoryOf;
    WorkingAccounted(w);
    RemembersAccounted(w.past, w.run, tasks);
    MaySaveTasks(w.past, w.run, tasks);
    w.run := w.run.(tasks := Some(tasks));
  }

  lemma WorkingAccounted(w: RunStore)
    requires w.Working()
    ensures Coherent(w.past) && Accounted(w.past, w.run)
  {
  }

  // ---- Keys ----

  function KeyText(runId: string, revision: nat, index: nat): string {
    runId + ":revision:" + Print(revision) + ":task:" + Print(index)
  }

  function TaskKey(digest: string -> string, runId: string, revision: nat, index: nat): string {
    "meeting-minutes-" + digest(KeyText(runId, revision, index))
  }

  lemma NumeralHasNoColon(n: nat)
    ensures ':' !in Print(n)
  {
  }

  /** What is hashed into the key of a creation determines revision and draft. */
  lemma KeyTextInjective(runId: string, v: nat, i: nat, v': nat, i': nat)
    requires KeyText(runId, v, i) == KeyText(runId, v', i')
    ensures v == v' && i == i'
  {
    NumeralHasNoColon(v);
    NumeralHasNoColon(v');
    hide Print;
    var head := runId + ":revision:";
    var a, b := Print(v) + [':'] + ("task:" + Print(i)), Print(v') + [':'] + ("task:" + Print(i'));
    assert KeyText(runId, v, i) == head + a && KeyText(runId, v', i') == head + b;
    assert a == (head + a)[|head|..] && b == (head + b)[|head|..];
    SplitsOnce(Print(v), "task:" + Print(i), Print(v'), "task:" + Print(i'), ':');
    assert Print(i) == ("task:" + Print(i))[5..] && Print(i') == ("task:" + Print(i'))[5..];
    PrintInjective(v, v');
    PrintInjective(i, i');
  }

  // ---- Registering one task ----

  function Scopes(registered: seq<Task>): seq<seq<string>> {
    if registered == [] then []
    else (if registered[0].projectCodes.Some? then [registered[0].projectCodes.value] else []) + Scopes(registered[1..])
  }

  predicate Conflicted(t: Tasks) {
    t.pending.None? && t.failure.Some? && t.failure.value.status == Some(409)
  }

  /** The one scope under which the tasks so far were created, if a creation met a conflict. */
  function ConflictScope(t: Tasks): Option<seq<string>> {
    var scopes := Scopes(t.registered);
    if Conflicted(t) && scopes != [] && forall i :: 0 <= i < |scopes| ==> scopes[i] == scopes[0] then Some(scopes[0])
    else None
  }

  function InputFor(draft: TaskDraft, personId: Option<string>, codes: seq<string>): TaskInput {
    TaskInput(draft.title, draft.dueAt, personId, codes)
  }

  /** The creation to request for the draft at `index`: the pending one, or a new one. */
  function NextCreation(r: Run, runId: string, ports: Ports, index: nat, personId: Option<string>): PendingTask
    requires r.generated.Some? && index < |r.generated.value.tasks| && r.destination.Some?
  {
    var t := TasksOf(r);
    if t.pending.Some? && t.pending.value.index == index then t.pending.value
    else
      var scope := ConflictScope(t);
      PendingTask(index, TaskKey(ports.digest, runId, r.revision, index),
                  InputFor(r.generated.value.tasks[index], personId,
                           if scope.Some? then scope.value else r.destination.value.taskProjectCodes))
  }

  method Save(w: RunStore) returns (t: Step)
    requires w.Working()
    modifies w`durable, w`log, w`past
    ensures w.Working() && (w.durable == old(w.durable) || w.durable == w.run)
    ensures t == Went ==> w.durable == w.run
  {
    hide MaySave, Coherent, LogOk, HistoryOf;
    var s := w.SaveRun();
    t := StepOf(s);
  }

  /** The draft's assignee, if it names one that is known. */
  method ResolveAssignee(ports: Ports, draft: TaskDraft) returns (t: Step, personId: Option<string>)
    ensures draft.assignee.None? ==> t == Went && personId == None
    ensures draft.assignee.Some? && !ports.resolvesAssignees ==> t.Broke?
  {
    t, personId := Went, None;
    if draft.assignee.Some? {
      if !ports.resolvesAssignees {
        return Broke(ApiError("meeting_minutes_assignee_resolver_unconfigured", None, None)), None;
      }
      var reply: ApiReply<Option<string>> := AskTasks();
      match reply {
        case Got(person) => personId := person;
        case Refused(error) => t := Broke(error);
        case Lost => t := Gone;
      }
    }
  }

  /** The state that the record has while it works on the drafts. */
  ghost predicate AtWork(w: RunStore, start: Run)
    reads w
  {
    && w.Working() && PublishSynced(w) && w.run.github.Some? && w.run.generated.Some? && w.run.destination.Some?
    && w.run.tasks.Some? && OnlyTasks(start, w.run) && start.tasks.Some?
    && TasksFit(w.run.tasks.value, |w.run.generated.value.tasks|)
    && KeepsRegistered(start.tasks.value, w.run.tasks.value)
  }

  /** A draft that the context knows already is registered under the task that it names. */
  method RegisterKnown(w: RunStore, ghost start: Run, index: nat, taskId: string, state: TaskState) returns (t: Step)
    requires AtWork(w, start) && index < |w.run.generated.value.tasks|
    requires !IsRegistered(w.run.tasks.value.registered, index)
    modifies w
    ensures AtWork(w, start) && IsRegistered(w.run.tasks.value.registered, index)
    ensures KeepsRegistered(old(w.run.tasks.value), w.run.tasks.value)
    ensures t == Went ==> w.durable == w.run
  {
    hide MaySave, Coherent, LogOk, HistoryOf, TasksFit, IsRegistered;
    var codes := w.run.destination.value.taskProjectCodes;
    var task := Task(index, w.run.generated.value.tasks[index].title, taskId, state, Some(codes), None, None);
    AddedTask(w.run.tasks.value, task, |w.run.generated.value.tasks|);
    SetTasks(w, w.run.tasks.value.(registered := w.run.tasks.value.registered + [task]));
    t := Save(w);
  }

  /** Note the creation on the record, durably, before it is requested. */
  method BeginCreation(w: RunStore, ghost start: Run, ports: Ports, index: nat, personId: Option<string>)
    returns (t: Step, pending: PendingTask)
    requires AtWork(w, start) && index < |w.run.generated.value.tasks|
    requires !IsRegistered(w.run.tasks.value.registered, index)
    requires RegisteredBelow(w.run.tasks.value, index) && Synced(w)
    modifies w
    ensures AtWork(w, start) && pending == NextCreation(old(w.run), w.env.runId, ports, index, personId)
    ensures pending.index == index
    ensures w.run.tasks.value.registered == old(w.run.tasks.value.registered)
    ensures t == Went ==> w.run.tasks.value.pending == Some(pending) && Synced(w)
    ensures Conflicted(old(w.run.tasks.value)) && ConflictScope(old(w.run.tasks.value)).None? ==> t.Broke?
  {
    hide MaySave, Coherent, LogOk, HistoryOf, TasksFit, IsRegistered, ConflictScope, InputFor;
    var tasks := w.run.tasks.value;
    pending := NextCreation(w.run, w.env.runId, ports, index, personId);
    if Conflicted(tasks) && ConflictScope(tasks).None? {
      return Broke(ApiError(REGISTRATION_FAILED, Some("idempotency_conflict"), Some(409))), pending;
    }
    t := Went;
    if tasks.pending != Some(pending) {
      PendingFits(tasks, pending, |w.run.generated.value.tasks|);
      if tasks.pending.Some? { PendingIsNotAhead(tasks, index, |w.run.generated.value.tasks|); }
      OvertakenIsRegistered(tasks, index);
      SetTasks(w, tasks.(pending := Some(pending)));
      t := Save(w);
    }
  }

  lemma OvertakenIsRegistered(t: Tasks, index: nat)
    requires RegisteredBelow(t, index)
    ensures t.pending.Some? && t.pending.value.index < index ==> IsRegistered(t.registered, t.pending.value.index)
  {
  }

  lemma CreationPermitted(w: RunStore, p: PendingTask)
    requires w.Working() && PublishSynced(w) && w.durable.tasks == w.run.tasks
    requires w.run.tasks.Some? && w.run.tasks.value.pending == Some(p)
    requires !IsRegistered(w.run.tasks.value.registered, p.index)
    ensures Permitted(w.env, w.past, TaskCreate(w.run.revision, p))
  {
  }

  lemma CreationKeepsMaySave(h: History, p: PendingTask, r: Run)
    requires MaySave(h, r) && r.tasks.Some? && r.tasks.value.pending == Some(p)
    ensures var h' := After(h, TaskCreate(r.revision, p)); MaySave(h', r) && h'.current == h.current
  {
    hide Evolves, WellFormed, Pristine, Cleaned, IsRegistered;
  }

  /** Request a creation that stands durably on the record. */
  method RequestCreation(w: RunStore, ghost p: PendingTask) returns (reply: ApiReply<ApiTask>)
    requires w.Working() && PublishSynced(w) && w.durable.tasks == w.run.tasks && w.run.tasks.Some?
    requires w.run.tasks.value.pending == Some(p) && !IsRegistered(w.run.tasks.value.registered, p.index)
    modifies w`log, w`past
    ensures w.Working() && w.past == After(old(w.past), TaskCreate(w.run.revision, p))
  {
    hide MaySave, Coherent, After, Permitted, LogOk, HistoryOf;
    CreationPermitted(w, p);
    CreationKeepsMaySave(w.past, p, w.run);
    w.Record(TaskCreate(w.run.revision, p));
    reply := AskTasks();
  }

  /** Bring a created task under the run's project codes, if it is not there. */
  method AlignScope(ports: Ports, created: ApiTask, requested: seq<string>, codes: seq<string>)
    returns (t: Step, task: ApiTask, aligning: bool)
    ensures t == Went ==> task.id != ""
  {
    t, task, aligning := Went, created, false;
    if created.id == "" { return Broke(ApiError(INVALID_RESPONSE, None, None)), created, false; }
    var scope := if created.projectCodes.Some? then created.projectCodes.value else requested;
    if scope != codes {
      if created.version.None? || !ports.updatesTasks {
        return Broke(ApiError(INVALID_RESPONSE, None, None)), created, false;
      }
      aligning := true;
      var reply: ApiReply<ApiTask> := AskTasks();
      match reply {
        case Got(updated) =>
          task := updated;
          if updated.id == "" { t := Broke(ApiError(INVALID_RESPONSE, None, None)); }
        case Refused(error) => t := Broke(error);
        case Lost => t := Gone;
      }
    }
  }

  /** The created task takes the place of the pending creation. */
  method RegisterCreated(w: RunStore, ghost start: Run, index: nat, created: ApiTask) returns (t: Step)
    requires AtWork(w, start) && index < |w.run.generated.value.tasks|
    requires !IsRegistered(w.run.tasks.value.registered, index)
    requires w.run.tasks.value.pending.Some? && w.run.tasks.value.pending.value.index == index
    modifies w
    ensures AtWork(w, start) && IsRegistered(w.run.tasks.value.registered, index)
    ensures KeepsRegistered(old(w.run.tasks.value), w.run.tasks.value)
    ensures t == Went ==> w.durable == w.run && w.run.tasks.value.pending.None?
  {
    hide MaySave, Coherent, LogOk, HistoryOf, TasksFit, IsRegistered;
    var tasks := w.run.tasks.value;
    var task := Task(index, w.run.generated.value.tasks[index].title, created.id, Unset,
                     Some(w.run.destination.value.taskProjectCodes), created.personId, created.personName);
    AddedTask(tasks, task, |w.run.generated.value.tasks|);
    SetTasks(w, tasks.(registered := tasks.registered + [task], pending := None));
    t := Save(w);
  }

  /** Create the task of the draft at `index`; `point` is how far a creation has come. */
  method CreateOne(w: RunStore, ghost start: Run, ports: Ports, index: nat, before: Option<TaskPoint>)
    returns (t: Step, point: Option<TaskPoint>)
    requires AtWork(w, start) && Synced(w) && index < |w.run.generated.value.tasks|
    requires !IsRegistered(w.run.tasks.value.registered, index) && RegisteredBelow(w.run.tasks.value, index)
    modifies w
    ensures AtWork(w, start)
    ensures t == Went ==> w.durable == w.run && RegisteredBelow(w.run.tasks.value, index + 1)
  {
    hide MaySave, Coherent, After, Permitted, LogOk, HistoryOf, TasksFit, IsRegistered, NextCreation;
    point := before;
    var draft := w.run.generated.value.tasks[index];
    var personId, pending, task, aligning;
    if draft.assignee.Some? { point := Some(AssigneeResolution); }
    t, personId := ResolveAssignee(ports, draft);
    if t != Went { return; }
    point := Some(TaskCreation);
    t, pending := BeginCreation(w, start, ports, index, personId);
    if t != Went { return; }
    var reply := RequestCreation(w, pending);
    match reply {
      case Lost => return Gone, point;
      case Refused(error) => return Broke(error), point;
      case Got(created) =>
        var codes := w.run.destination.value.taskProjectCodes;
        t, task, aligning := AlignScope(ports, created, pending.input.projectCodes, codes);
    }
    if aligning { point := Some(ScopeUpdate); }
    if t != Went { return; }
    ghost var tasks := w.run.tasks.value;
    t := RegisterCreated(w, start, index, task);
    OneMoreRegistered(tasks, w.run.tasks.value, index);
  }

  lemma OneMoreRegistered(before: Tasks, after: Tasks, index: nat)
    requires KeepsRegistered(before, after)
    ensures RegisteredBelow(before, index) && IsRegistered(after.registered, index) ==>
      RegisteredBelow(after, index + 1)
  {
  }

  /** Register the draft at `index`, unless it has a task already. */
  method RegisterOne(w: RunStore, ghost start: Run, ports: Ports, receipt: ContextReceipt, index: nat,
                     before: Option<TaskPoint>)
    returns (t: Step, point: Option<TaskPoint>)
    requires AtWork(w, start) && Synced(w) && index < |w.run.generated.value.tasks|
    requires RegisteredBelow(w.run.tasks.value, index)
    modifies w
    ensures AtWork(w, start)
    ensures t == Went ==> Synced(w) && RegisteredBelow(w.run.tasks.value, index + 1)
  {
    hide MaySave, Coherent, LogOk, HistoryOf, TasksFit, IsRegistered;
    t, point := Went, before;
    ghost var tasks := w.run.tasks.value;
    if IsRegistered(w.run.tasks.value.registered, index) {
      OneMoreRegistered(tasks, tasks, index);
      return;
    }
    match ports.reconcile(w.run.generated.value.tasks[index], receipt) {
      case SameAs(taskId) =>
        t := RegisterKnown(w, start, index, taskId, Reused);
        OneMoreRegistered(tasks, w.run.tasks.value, index);
      case Resembles(taskId) =>
        t := RegisterKnown(w, start, index, taskId, NeedsReview);
        OneMoreRegistered(tasks, w.run.tasks.value, index);
      case Unknown =>
        t, point := CreateOne(w, start, ports, index, before);
    }
  }

  // ---- Registering all tasks ----

  lemma SameTasksFit(t: Tasks, failure: Option<TaskFailure>, count: nat)
    requires TasksFit(t, count)
    ensures TasksFit(t.(failure := failure), count)
    ensures RemembersTasks(Some(t), t.(failure := failure))
  {
  }

  lemma FitOfWorking(w: RunStore)
    requires w.Working() && w.run.github.Some?
    ensures w.run.generated.Some? && w.run.destination.Some? && w.run.context.Some?
    ensures TasksFit(TasksOf(w.run), |w.run.generated.value.tasks|)
  {
    PublishedIsGenerated(w.past, w.run);
    TasksOfFit(w.past, w.run);
  }

  /** Put a note on the tasks, or take it off. */
  method NoteFailure(w: RunStore, failure: Option<TaskFailure>)
    requires w.Working() && w.run.github.Some? && w.run.tasks.Some?
    modifies w`run
    ensures w.Working() && w.run == old(w.run).(tasks := Some(old(w.run.tasks.value).(failure := failure)))
  {
    hide MaySave, Coherent, LogOk, HistoryOf, TasksFit, IsRegistered, RemembersTasks;
    FitOfWorking(w);
    SameTasksFit(w.run.tasks.value, failure, |w.run.generated.value.tasks|);
    SetTasks(w, w.run.tasks.value.(failure := failure));
  }

  /** `registerGeneratedTasks`: every draft in order, or the first error noted with how far it came. */
  method RegisterTasks(w: RunStore, ports: Ports, receipt: ContextReceipt) returns (t: Step)
    requires w.Working() && Synced(w) && w.run.github.Some? && w.run.tasks.Some?
    modifies w
    ensures w.Working() && PublishSynced(w) && OnlyTasks(old(w.run), w.run) && w.run.tasks.Some?
    ensures t == Went ==> Synced(w) && RegisteredBelow(w.run.tasks.value, |w.run.generated.value.tasks|)
  {
    hide MaySave, Coherent, LogOk, HistoryOf, TasksFit;
    FitOfWorking(w);
    ghost var start := w.run;
    var count := |w.run.generated.value.tasks|;
    var point: Option<TaskPoint> := None;
    t := Went;
    for index := 0 to count
      invariant AtWork(w, start) && Synced(w) && t == Went && RegisteredBelow(w.run.tasks.value, index)
    {
      t, point := RegisterOne(w, start, ports, receipt, index, point);
      if t != Went {
        if t.Broke? { t := NoteRegistrationFailure(w, ports, index, point, t.error); }
        return;
      }
    }
  }

  method NoteRegistrationFailure(w: RunStore, ports: Ports, index: nat, point: Option<TaskPoint>, error: ApiError)
    returns (t: Step)
    requires w.Working() && PublishSynced(w) && w.run.github.Some? && w.run.tasks.Some?
    modifies w
    ensures w.Working() && PublishSynced(w) && t != Went
    ensures w.run == old(w.run).(tasks := Some(old(w.run.tasks.value).(failure := Some(
      TaskFailure(index, Registration, point, ports.safeMessage(error.message, REGISTRATION_FAILED),
                  ports.safeCode(error.code), error.status)))))
    ensures w.durable == w.run || w.durable == old(w.durable)
  {
    hide MaySave, Coherent, LogOk, HistoryOf;
    NoteFailure(w, Some(TaskFailure(index, Registration, point, ports.safeMessage(error.message, REGISTRATION_FAILED),
                                    ports.safeCode(error.code), error.status)));
    t := Save(w);
    if t == Went { t := Broke(error); }
  }

  // ---- The integration ----

  /** All that the integration changes of the record. */
  ghost predicate Integrated(r: Run, r': Run) {
    r' == r.(tasks := r'.tasks, status := r'.status, failure := r'.failure, stage := r'.stage, code := r'.code,
             context := r'.context, slack := r.slack.(taskCardTs := r'.slack.taskCardTs))
  }

  lemma IntegratedOn(a: Run, b: Run, c: Run)
    requires Integrated(a, b) && Integrated(b, c)
    ensures Integrated(a, c)
  {
    assert b.slack == a.slack.(taskCardTs := b.slack.taskCardTs);
    assert c.slack == b.slack.(taskCardTs := c.slack.taskCardTs);
  }

  /** Every draft has a task, or what is missing is noted for the next delivery. */
  ghost predicate TasksSettled(r: Run) {
    && r.status == Completed && r.tasks.Some? && r.generated.Some?
    && (r.tasks.value.failure.Some? || RegisteredBelow(r.tasks.value, |r.generated.value.tasks|))
  }

  function FirstIndex(t: Tasks): nat {
    if t.failure.Some? then t.failure.value.index else if |t.registered| == 0 then 0 else |t.registered| - 1
  }

  /** `deferTaskIntegration`: the run is completed, and what failed is left for a later delivery. */
  method Defer(w: RunStore, ports: Ports, part: TaskPart, error: ApiError) returns (s: Signal)
    requires w.Working() && PublishSynced(w) && w.run.github.Some? && w.run.tasks.Some?
    modifies w
    ensures w.Working() && PublishSynced(w) && Integrated(old(w.run), w.run) && w.run.tasks.Some?
    ensures w.run.tasks.value == old(w.run.tasks.value).(failure := w.run.tasks.value.failure)
    ensures s == Done ==>
      && w.durable == w.run && TasksSettled(w.run) && w.run.failure.None?
      && w.run.tasks.value.failure.Some? && w.run.tasks.value.failure.value.part == part
  {
    hide MaySave, Coherent, LogOk, HistoryOf;
    FitOfWorking(w);
    var tasks := w.run.tasks.value;
    var known := if part == Registration then tasks.failure else None;
    var code := ports.safeCode(error.code);
    NoteFailure(w, Some(TaskFailure(
      FirstIndex(tasks), part, if known.Some? then known.value.point else None,
      ports.safeMessage(error.message, "meeting_minutes_" + PartName(part) + "_failed"),
      if code.Some? then code else if known.Some? then known.value.code else None,
      if known.Some? then known.value.status else None)));
    var next := w.run.(status := Completed, failure := None, stage := Some(TaskRegistration),
                       code := ports.diagnosticCode(error));
    MaySaveUnguarded(w.past, w.run, next);
    w.run := next;
    s := w.SaveRun();
  }

  /** `markTaskIntegrationPending`. */
  method MarkPending(w: RunStore, part: TaskPart) returns (s: Signal)
    requires w.Working() && PublishSynced(w) && w.run.github.Some? && w.run.tasks.Some?
    modifies w
    ensures w.Working() && PublishSynced(w) && OnlyTasks(old(w.run), w.run) && w.run.tasks.Some?
    ensures w.run.tasks.value == old(w.run.tasks.value).(failure := w.run.tasks.value.failure)
    ensures s == Done ==> w.durable == w.run && w.run.tasks.value.failure.Some?
  {
    hide MaySave, Coherent, LogOk, HistoryOf;
    NoteFailure(w, Some(TaskFailure(FirstIndex(w.run.tasks.value), part, None,
                                    "meeting_minutes_" + PartName(part) + "_pending", None, None)));
    s := w.SaveRun();
  }

  /** `clearTaskIntegrationPending`. */
  method ClearPending(w: RunStore) returns (s: Signal)
    requires w.Working() && PublishSynced(w) && w.run.github.Some? && w.run.tasks.Some?
    modifies w
    ensures w.Working() && PublishSynced(w) && Integrated(old(w.run), w.run) && w.run.tasks.Some?
    ensures w.run.tasks.value == old(w.run.tasks.value).(failure := None) && w.run.status == old(w.run.status)
  {
    hide MaySave, Coherent, LogOk, HistoryOf;
    s := Done;
    if w.run.tasks.value.failure.None? { return; }
    NoteFailure(w, None);
    if w.run.stage == Some(TaskRegistration) {
      MaySaveUnguarded(w.past, w.run, w.run.(stage := None, code := None));
      w.run := w.run.(stage := None, code := None);
    }
    s := w.SaveRun();
  }

  /** `run.taskRegistration ??= { registered: [] }`, in memory only. */
  method EnsureTasks(w: RunStore)
    requires w.Working() && Synced(w) && w.run.github.Some?
    modifies w`run
    ensures w.Working() && Synced(w) && w.run == old(w.run).(tasks := Some(TasksOf(old(w.run))))
  {
    hide MaySave, Coherent, LogOk, HistoryOf;
    if w.run.tasks.None? {
      FitOfWorking(w);
      SetTasks(w, NO_TASKS);
    }
  }

  /** Registration, if some draft has no task yet. */
  method RegisterMissing(w: RunStore, ports: Ports) returns (t: Step)
    requires w.Working() && Synced(w) && w.run.github.Some? && w.run.tasks.Some?
    modifies w
    ensures w.Working() && PublishSynced(w) && Integrated(old(w.run), w.run) && w.run.tasks.Some?
    ensures t == Went ==>
      && Synced(w) && w.run.generated.Some?
      && RegisteredBelow(w.run.tasks.value, |w.run.generated.value.tasks|)
  {
    hide MaySave, Coherent, LogOk, HistoryOf, TasksFit;
    FitOfWorking(w);
    t := Went;
    var tasks, count := w.run.tasks.value, |w.run.generated.value.tasks|;
    if exists index :: 0 <= index < count && !IsRegistered(tasks.registered, index) {
      var s, receipt := ResolveContext(w, ports, false);
      if s != Done { return StepOf(s); }
      t := RegisterTasks(w, ports, receipt);
    }
  }

  /** Post the task card and record it. */
  method PostCard(w: RunStore) returns (t: Step)
    requires w.Working() && PublishSynced(w) && w.run.github.Some? && w.run.tasks.Some?
    modifies w
    ensures w.Working() && PublishSynced(w) && Integrated(old(w.run), w.run) && w.run.tasks.Some?
    ensures w.run.tasks.value == old(w.run.tasks.value).(failure := w.run.tasks.value.failure)
    ensures t == Went ==> w.durable == w.run && w.run.slack.taskCardTs.Some?
  {
    hide MaySave, Coherent, LogOk, HistoryOf;
    var reply: ApiReply<string> := AskTasks();
    match reply {
      case Lost => return Gone;
      case Refused(error) => return Broke(error);
      case Got(ts) =>
        var next := w.run.(slack := w.run.slack.(taskCardTs := Some(ts)));
        MaySaveUnguarded(w.past, w.run, next);
        w.run := next;
        t := Save(w);
    }
  }

  /** The board and card steps leave the registered tasks alone. */
  ghost predicate NotesOnly(r: Run, r': Run)
    requires r.tasks.Some?
  {
    && Integrated(r, r') && r'.tasks.Some?
    && r'.tasks.value == r.tasks.value.(failure := r'.tasks.value.failure)
  }

  /** Repair the task board, noted as pending before it is tried. */
  method BoardStep(w: RunStore, ports: Ports) returns (s: Signal, deferred: bool)
    requires w.Working() && PublishSynced(w) && w.run.github.Some? && w.run.tasks.Some?
    modifies w
    ensures w.Working() && PublishSynced(w) && NotesOnly(old(w.run), w.run)
    ensures s == Done ==> w.durable == w.run && (deferred ==> TasksSettled(w.run))
  {
    hide MaySave, Coherent, LogOk, HistoryOf;
    deferred := false;
    s := MarkPending(w, Board);
    if s != Done { return; }
    var reply: ApiReply<bool> := AskTasks();
    match reply {
      case Got(_) =>
      case Lost => s := Crashed;
      case Refused(error) =>
        deferred := true;
        ghost var start := w.run;
        s := Defer(w, ports, Board, error);
        IntegratedOn(old(w.run), start, w.run);
    }
  }

  /** Post the task card, noted as pending before it is tried. */
  method CardStep(w: RunStore, ports: Ports) returns (s: Signal, deferred: bool)
    requires w.Working() && PublishSynced(w) && w.run.github.Some? && w.run.tasks.Some?
    modifies w
    ensures w.Working() && PublishSynced(w) && NotesOnly(old(w.run), w.run)
    ensures s == Done ==> w.durable == w.run && (deferred ==> TasksSettled(w.run))
  {
    hide MaySave, Coherent, LogOk, HistoryOf;
    deferred := false;
    s := MarkPending(w, Card);
    if s != Done { return; }
    ghost var start := w.run;
    var t := PostCard(w);
    IntegratedOn(old(w.run), start, w.run);
    match t {
      case Went =>
      case Gone => s := Crashed;
      case Broke(error) =>
        deferred := true;
        start := w.run;
        s := Defer(w, ports, Card, error);
        IntegratedOn(old(w.run), start, w.run);
    }
  }

  /** Everything was done: take off the note, and complete the run. */
  method Complete(w: RunStore) returns (s: Signal)
    requires w.Working() && PublishSynced(w) && w.run.github.Some? && w.run.tasks.Some?
    modifies w
    ensures w.Working() && PublishSynced(w) && NotesOnly(old(w.run), w.run)
    ensures s == Done ==> w.durable == w.run && w.run.status == Completed && w.run.tasks.value.failure.None?
  {
    hide MaySave, Coherent, LogOk, HistoryOf;
    s := ClearPending(w);
    if s != Done { return; }
    MaySaveUnguarded(w.past, w.run, w.run.(status := Completed));
    w.run := w.run.(status := Completed);
    s := w.SaveRun();
  }

  lemma NotesOn(a: Run, b: Run, c: Run)
    requires a.tasks.Some? && NotesOnly(a, b) && NotesOnly(b, c)
    ensures NotesOnly(a, c)
    ensures a.generated.Some? && RegisteredBelow(a.tasks.value, |a.generated.value.tasks|) ==>
      RegisteredBelow(c.tasks.value, |c.generated.value.tasks|)
  {
    IntegratedOn(a, b, c);
  }

  /** Board, card and completion, as far as they are called for. */
  method Finish(w: RunStore, ports: Ports, startAt: TaskPart, reconcileBoard: bool) returns (s: Signal)
    requires w.Working() && Synced(w) && w.run.github.Some? && w.run.tasks.Some?
    modifies w
    ensures w.Working() && PublishSynced(w) && NotesOnly(old(w.run), w.run)
    ensures s == Done ==> Synced(w)
    ensures s == Done && startAt == Registration ==>
      w.durable == w.run && w.run.status == Completed && (w.run.tasks.value.failure.None? || TasksSettled(w.run))
  {
    assert PublishSynced(w);
    hide MaySave, Coherent, LogOk, HistoryOf, NotesOnly, Synced, TasksSettled;
    var deferred;
    NothingNoted(w.run);
    SyncedWhenSaved(w);
    if startAt != Card && (|w.run.tasks.value.registered| > 0 || reconcileBoard) {
      if startAt == Board && !ports.repairsBoard { return Done; }
      if ports.repairsBoard {
        s, deferred := BoardStep(w, ports);
        SyncedWhenSaved(w);
        NotesKept(old(w.run), w.run);
        if s != Done || deferred { SettledIsCompleted(w.run); return; }
      }
    }
    if startAt == Card && w.run.slack.taskCardTs.None?
       && (|w.run.tasks.value.registered| == 0 || w.run.slack.parentTs.None? || !ports.postsCard) { return Done; }
    if |w.run.tasks.value.registered| > 0 && w.run.slack.parentTs.Some? && w.run.slack.taskCardTs.None?
       && ports.postsCard {
      ghost var start := w.run;
      s, deferred := CardStep(w, ports);
      SyncedWhenSaved(w);
      NotesOn(old(w.run), start, w.run);
      NotesKept(old(w.run), w.run);
      if s != Done || deferred { SettledIsCompleted(w.run); return; }
    }
    ghost var start := w.run;
    s := Complete(w);
    SyncedWhenSaved(w);
    NotesOn(old(w.run), start, w.run);
  }

  lemma NothingNoted(r: Run)
    requires r.tasks.Some?
    ensures NotesOnly(r, r)
  {
  }

  lemma NotesKept(r: Run, r': Run)
    requires r.tasks.Some? && NotesOnly(r, r')
    ensures r'.tasks.Some? && r'.tasks.value.registered == r.tasks.value.registered && r'.github == r.github
    ensures r'.slack.parentTs == r.slack.parentTs
  {
  }

  lemma SettledIsCompleted(r: Run)
    ensures TasksSettled(r) ==> r.status == Completed
  {
  }

  lemma SyncedWhenSaved(w: RunStore)
    requires PublishSynced(w)
    ensures w.durable == w.run ==> Synced(w)
  {
  }

  /**
   * One pass of the integration. When it ends well from the start, the run is durably completed, and every
   * draft has a task or what is missing is noted for the next delivery.
   */
  method Integrate(w: RunStore, ports: Ports, startAt: TaskPart, reconcileBoard: bool) returns (s: Signal)
    requires w.Working() && Synced(w) && w.run.github.Some?
    modifies w
    ensures w.Working() && PublishSynced(w) && Integrated(old(w.run), w.run)
    ensures s == Done ==> Synced(w)
    ensures s == Done && startAt == Registration ==> w.durable == w.run && TasksSettled(w.run)
  {
    hide MaySave, Coherent, LogOk, HistoryOf;
    EnsureTasks(w);
    ghost var start := w.run;
    if startAt == Registration {
      var t := RegisterMissing(w, ports);
      IntegratedOn(old(w.run), start, w.run);
      start := w.run;
      match t {
        case Gone => return Crashed;
        case Broke(error) =>
          s := Defer(w, ports, Registration, error);
          IntegratedOn(old(w.run), start, w.run);
          return;
        case Went =>
      }
    }
    s := Finish(w, ports, startAt, reconcileBoard);
    IntegratedOn(old(w.run), start, w.run);
  }
}
