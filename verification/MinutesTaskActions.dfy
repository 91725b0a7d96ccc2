/**
 * What operators do to a run's tasks after it was published: edit or cancel one from its card, or adopt tasks
 * that exist already. `allowed` stands for the checks of team, channel and operator before anything is done.
 */
module MinutesTaskActions {
  import opened Options
  import opened MinutesRun
  import opened MinutesLog
  import opened MinutesStore
  import opened MinutesContext
  import opened MinutesTasks

  /** How an action ends for the operator; `Reported` is any error after it was accepted. */
  datatype ActionResult = Forbidden | Applied | Reported | Interrupted

  /** What the edit view holds. */
  datatype Form = Form(title: string, due: Option<string>, assignee: Option<string>)

  const MAX_TITLE := 120

  // ---- The task at hand ----

  /** The position of the task that a card names, unless it was removed. */
  function Position(registered: seq<Task>, index: nat): (k: Option<nat>)
    ensures k.Some? ==>
      k.value < |registered| && registered[k.value].index == index && registered[k.value].state != Removed
  {
    if registered == [] then None
    else if registered[0].index == index && registered[0].state != Removed then Some(0)
    else match Position(registered[1..], index)
      case Some(k) => Some(k + 1)
      case None => None
  }

  /** `sameTaskScope`. */
  predicate SameScope(actual: Option<seq<string>>, expected: seq<string>) {
    actual.Some? && |actual.value| == |expected| && forall i :: 0 <= i < |expected| ==> expected[i] in actual.value
  }

  /** A scope under which the task may have been created before the configuration changed. */
  predicate LegacyScope(d: Destination, task: Task, actual: Option<seq<string>>) {
    if task.projectCodes.Some? && task.projectCodes.value != [] then SameScope(actual, task.projectCodes.value)
    else
      || (d.taskProjectCodes != [] && SameScope(actual, d.taskProjectCodes))
      || (d.projectId != "" && SameScope(actual, [d.projectId]))
  }

  /** The record after task `k` was replaced by one of the same draft. */
  function WithTask(t: Tasks, k: nat, task: Task): Tasks
    requires k < |t.registered|
  {
    t.(registered := t.registered[k := task])
  }

  lemma ReplacedTask(t: Tasks, k: nat, task: Task, count: nat)
    requires TasksFit(t, count) && k < |t.registered| && task.index == t.registered[k].index
    ensures TasksFit(WithTask(t, k, task), count) && RemembersTasks(Some(t), WithTask(t, k, task))
  {
    var t' := WithTask(t, k, task);
    forall i: nat ensures IsRegistered(t'.registered, i) <==> IsRegistered(t.registered, i) {
      if j :| 0 <= j < |t.registered| && t.registered[j].index == i { assert t'.registered[j].index == i; }
      if j :| 0 <= j < |t'.registered| && t'.registered[j].index == i { assert t.registered[j].index == i; }
    }
  }

  // ---- Routing ----

  /** `reconcileTaskDestination`: the task routing follows the configuration. */
  method ReconcileDestination(w: RunStore, destinations: seq<Destination>) returns (s: Signal)
    requires w.Working() && w.durable == w.run && w.run.github.Some? && w.run.destination.Some?
    modifies w
    ensures w.Working() && w.run == old(w.run).(destination := w.run.destination)
    ensures w.durable == old(w.durable) || w.durable == w.run
    ensures s == Done ==>
      && w.durable == w.run
      && var found := FindDestination(destinations, old(w.run.destination.value.id));
         && found.Some?
         && w.run.destination == Some(old(w.run.destination.value).(
              taskProjectCodes := found.value.taskProjectCodes, taskBoardTargetId := found.value.taskBoardTargetId))
  {
    hide MaySave, Coherent, LogOk, HistoryOf;
    FitOfWorking(w);
    var current := w.run.destination.value;
    var found := FindDestination(destinations, current.id);
    if found.None? { return Threw("meeting_minutes_destination_forbidden"); }
    s := Done;
    if current.taskProjectCodes != found.value.taskProjectCodes
       || current.taskBoardTargetId != found.value.taskBoardTargetId {
      var routed := current.(taskProjectCodes := found.value.taskProjectCodes,
                             taskBoardTargetId := found.value.taskBoardTargetId);
      MaySaveRouting(w.past, w.run, routed, w.run.context.value);
      w.run := w.run.(destination := Some(routed));
      s := w.SaveRun();
    }
  }

  // ---- Cancelling ----

  /** The action is one on a task of this run, and its operator may take it. */
  predicate Actionable(r: Run, own: Source, source: Source, index: nat, allowed: bool) {
    && own == source && allowed && r.destination.Some? && r.tasks.Some?
    && Position(r.tasks.value.registered, index).Some?
  }

  /** Write the record with a task replaced, then show it; what is shown may fail without undoing the record. */
  method ReplaceTask(w: RunStore, k: nat, task: Task) returns (result: ActionResult)
    requires w.Working() && w.durable == w.run && w.run.github.Some? && w.run.tasks.Some?
    requires k < |w.run.tasks.value.registered| && task.index == w.run.tasks.value.registered[k].index
    modifies w
    ensures w.Working() && (result == Applied || result == Reported || result == Interrupted)
    ensures w.durable == old(w.durable)
         || w.durable == old(w.run).(tasks := Some(WithTask(old(w.run.tasks.value), k, task)))
    ensures result == Applied ==> w.durable == old(w.run).(tasks := Some(WithTask(old(w.run.tasks.value), k, task)))
  {
    hide MaySave, Coherent, LogOk, HistoryOf, TasksFit, RemembersTasks;
    FitOfWorking(w);
    ReplacedTask(w.run.tasks.value, k, task, |w.run.generated.value.tasks|);
    SetTasks(w, WithTask(w.run.tasks.value, k, task));
    var s := w.SaveRun();
    result := Project(s);
  }

  /** After a save: the card and the board are updated, and any error is reported. */
  method Project(s: Signal) returns (result: ActionResult)
    ensures result == Applied ==> s == Done
    ensures result != Forbidden
  {
    if s == Crashed { return Interrupted; }
    if s.Threw? { return Reported; }
    var shown: Reply<bool> := Ask();
    result := match shown case Answer(_) => Applied case Error(_) => Reported case Crash => Interrupted;
  }

  /** Cancel the task of a card: it is deleted, or gone already, and marked as removed. */
  method CancelTask(w: RunStore, source: Source, destinations: seq<Destination>, index: nat, allowed: bool)
    returns (result: ActionResult)
    requires w.Valid()
    modifies w
    ensures w.Valid()
    ensures result == Forbidden <==> !Actionable(old(w.durable), w.source, source, index, allowed)
    ensures result == Forbidden ==> w.durable == old(w.durable)
    ensures w.durable == old(w.durable).(destination := w.durable.destination, tasks := w.durable.tasks)
    ensures result == Applied ==>
      && var k := Position(old(w.durable.tasks.value).registered, index).value;
         w.durable == old(w.durable).(
           destination := w.durable.destination,
           tasks := Some(WithTask(old(w.durable.tasks.value), k,
                                  old(w.durable.tasks.value).registered[k].(state := Removed))))
  {
    hide MaySave, Coherent, LogOk, HistoryOf;
    w.Load();
    if !Actionable(w.run, w.source, source, index, allowed) { return Forbidden; }
    var tasks := w.run.tasks.value;
    var k := Position(tasks.registered, index);
    TasksNeedPublication(w.past, w.run);
    var before := w.run.destination.value;
    var s := ReconcileDestination(w, destinations);
    if s == Crashed { return Interrupted; }
    if s.Threw? { return Reported; }
    var task := tasks.registered[k.value];
    var current: ApiReply<ApiTask> := AskTasks();
    match current {
      case Lost => return Interrupted;
      case Refused(error) =>
        if error.status != Some(404) { return Reported; }
      case Got(live) =>
        if !SameScope(live.projectCodes, w.run.destination.value.taskProjectCodes)
           && !LegacyScope(before, task, live.projectCodes) { return Reported; }
        var deleted: ApiReply<bool> := AskTasks();
        if deleted.Lost? { return Interrupted; }
        if deleted.Refused? { return Reported; }
    }
    result := ReplaceTask(w, k.value, task.(state := Removed));
  }

  lemma TasksNeedPublication(h: History, r: Run)
    requires MaySave(h, r) && r.tasks.Some?
    ensures r.github.Some?
  {
  }

  // ---- Editing ----

  function EditFor(index: nat, form: Form, updated: ApiTask): Edit {
    Edit(index, form.title,
         if form.due.Some? then Some(form.due.value + "T00:00:00+09:00") else None,
         if form.assignee.Some? then Some(updated.personName) else None)
  }

  function EditedTask(task: Task, form: Form, updated: ApiTask, codes: seq<string>): Task {
    var titled := task.(title := form.title, projectCodes := Some(codes));
    if form.assignee.Some? then titled.(personId := updated.personId, personName := updated.personName) else titled
  }

  /** The record after an edit. */
  function EditedRun(r: Run, k: nat, task: Task, e: Edit): Run
    requires r.tasks.Some? && k < |r.tasks.value.registered| && r.generated.Some?
  {
    r.(tasks := Some(WithTask(r.tasks.value, k, task)),
       generated := Some(r.generated.value.(tasks := Edited(r.generated.value.tasks, e))))
  }

  lemma NotingEditKeepsMaySave(h: History, r: Run, e: Edit)
    requires MaySave(h, r) && h.Has(r.revision) && r.generated.Some?
    requires h.latest[r.revision].generated == r.generated
    ensures var h' := After(h, TaskEdited(r.revision, e)); MaySave(h', r) && h'.current == h.current
  {
    hide Evolves, WellFormed, Pristine, Cleaned, IsRegistered;
  }

  lemma MaySaveEdited(h: History, r: Run, k: nat, task: Task, e: Edit)
    requires Coherent(h) && MaySave(h, r) && r.revision <= h.current && r.github.Some? && r.tasks.Some?
    requires h.Has(r.revision) && h.latest[r.revision] == r && h.edit == Some((r.revision, e))
    requires k < |r.tasks.value.registered| && task.index == r.tasks.value.registered[k].index
    ensures r.generated.Some? && MaySave(h, EditedRun(r, k, task, e))
  {
    PublishedIsGenerated(h, r);
    ReplacedTask(r.tasks.value, k, task, |r.generated.value.tasks|);
    RemembersAccounted(h, r, WithTask(r.tasks.value, k, task));
    var r' := EditedRun(r, k, task, e);
    assert Accounted(h, r') by {
      hide WellFormed, MaySave, IsRegistered, TasksFit, Edited;
      assert Accounted(h, r.(tasks := r'.tasks));
    }
    EditedIsWellFormed(r, r');
    hide TasksFit, IsRegistered, Cleaned, Accounted, RemembersTasks;
  }

  lemma EditedIsWellFormed(r: Run, r': Run)
    requires WellFormed(r) && r.github.Some? && r.generated.Some? && r'.generated.Some?
    requires r' == r.(tasks := r'.tasks, generated := r'.generated) && r'.tasks.Some?
    requires TextOf(r'.generated.value) == TextOf(r.generated.value)
    requires TasksFit(r'.tasks.value, |r.generated.value.tasks|)
    ensures WellFormed(r') && Evolves(r, r')
  {
    hide TasksFit;
  }

  /** The record and its history agree that nothing is in flight. */
  lemma LoadedIsLatest(w: RunStore)
    requires w.Working() && w.durable == w.run
    ensures w.past.Has(w.run.revision) && w.past.latest[w.run.revision] == w.run && Coherent(w.past)
    ensures w.run.revision <= w.past.current
  {
  }

  /** The task's own record is changed: note it, then write both copies on the run. */
  method WriteEdit(w: RunStore, k: nat, task: Task, e: Edit) returns (result: ActionResult)
    requires w.Working() && w.durable == w.run && w.run.github.Some? && w.run.tasks.Some? && w.run.generated.Some?
    requires k < |w.run.tasks.value.registered| && task.index == w.run.tasks.value.registered[k].index
    modifies w
    ensures w.Working() && result != Forbidden
    ensures w.durable == old(w.durable) || w.durable == EditedRun(old(w.run), k, task, e)
    ensures result == Applied ==> w.durable == EditedRun(old(w.run), k, task, e)
  {
    hide MaySave, Coherent, LogOk, HistoryOf;
    LoadedIsLatest(w);
    NotingEditKeepsMaySave(w.past, w.run, e);
    w.Record(TaskEdited(w.run.revision, e));
    hide After;
    LoadedIsLatest(w);
    MaySaveEdited(w.past, w.run, k, task, e);
    w.run := EditedRun(w.run, k, task, e);
    var s := w.SaveRun();
    result := Project(s);
  }

  /** Edit the task of a card: the task's own record first, then what the run says of it. */
  method EditTask(w: RunStore, source: Source, destinations: seq<Destination>, index: nat, allowed: bool, form: Form)
    returns (result: ActionResult, ghost updated: ApiTask)
    requires w.Valid()
    modifies w
    ensures w.Valid()
    ensures result == Forbidden <==> !Actionable(old(w.durable), w.source, source, index, allowed)
    ensures result == Forbidden || |form.title| > MAX_TITLE || form.title == "" ==>
      w.durable == old(w.durable).(destination := w.durable.destination)
    ensures w.durable == old(w.durable).(
      destination := w.durable.destination, tasks := w.durable.tasks, generated := w.durable.generated)
    ensures result == Applied ==>
      && w.durable.destination.Some? && old(w.durable.generated).Some?
      && var k := Position(old(w.durable.tasks.value).registered, index).value;
         var codes := w.durable.destination.value.taskProjectCodes;
         && SameScope(updated.projectCodes, codes)
         && w.durable == EditedRun(old(w.durable).(destination := w.durable.destination), k,
              EditedTask(old(w.durable.tasks.value).registered[k], form, updated, codes), EditFor(index, form, updated))
  {
    hide MaySave, Coherent, LogOk, HistoryOf;
    updated := *;
    w.Load();
    if !Actionable(w.run, w.source, source, index, allowed) { return Forbidden, updated; }
    var tasks := w.run.tasks.value;
    var k := Position(tasks.registered, index);
    TasksNeedPublication(w.past, w.run);
    FitOfWorking(w);
    var before := w.run.destination.value;
    var s := ReconcileDestination(w, destinations);
    if s == Crashed { return Interrupted, updated; }
    if s.Threw? || form.title == "" || |form.title| > MAX_TITLE { return Reported, updated; }
    var task, codes := tasks.registered[k.value], w.run.destination.value.taskProjectCodes;
    var current: ApiReply<ApiTask> := AskTasks();
    if current.Lost? { return Interrupted, updated; }
    if current.Refused? { return Reported, updated; }
    if !SameScope(current.value.projectCodes, codes) && !LegacyScope(before, task, current.value.projectCodes) {
      return Reported, updated;
    }
    var changed: ApiReply<ApiTask> := AskTasks();
    if changed.Lost? { return Interrupted, updated; }
    if changed.Refused? || !SameScope(changed.value.projectCodes, codes) { return Reported, updated; }
    updated := changed.value;
    result := WriteEdit(w, k.value, EditedTask(task, form, changed.value, codes), EditFor(index, form, changed.value));
  }

  // ---- Adopting ----

  /** The registration of this run may be replaced by tasks that exist already. */
  predicate Adoptable(r: Run) {
    && r.tasks.Some?
    && ((r.tasks.value.failure.Some? && r.tasks.value.failure.value.status == Some(409))
        || (r.generated.Some? && |r.tasks.value.registered| == |r.generated.value.tasks|
            && r.stage == Some(TaskRegistration)))
  }

  /** One task is named for each draft of a run whose tasks may be adopted. */
  predicate MayAdopt(r: Run, ids: seq<string>, allowed: bool) {
    && allowed && r.destination.Some? && r.generated.Some? && Adoptable(r) && |ids| == |r.generated.value.tasks|
  }

  function AdoptedTasks(live: seq<ApiTask>, codes: seq<string>): (tasks: seq<Task>)
    ensures |tasks| == |live|
    ensures forall i :: 0 <= i < |live| ==>
      tasks[i] == Task(i, live[i].title, live[i].id, Reused, Some(codes), None, None)
  {
    seq(|live|, i requires 0 <= i < |live| => Task(i, live[i].title, live[i].id, Reused, Some(codes), None, None))
  }

  const ADOPTION_FAILURE := TaskFailure(0, Registration, None, REGISTRATION_FAILED, None, Some(409))

  lemma AdoptionFits(r: Run, tasks: Tasks, count: nat)
    requires r.tasks.Some? && TasksFit(r.tasks.value, count)
    requires |tasks.registered| == count && tasks.pending.None?
    requires forall i :: 0 <= i < count ==> tasks.registered[i].index == i
    ensures TasksFit(tasks, count) && RemembersTasks(r.tasks, tasks)
  {
    forall i: nat | i < count ensures IsRegistered(tasks.registered, i) {
      assert tasks.registered[i].index == i;
    }
  }

  /** Adopt existing tasks, one for each draft in order; the next delivery finds nothing left to create. */
  method AdoptTasks(w: RunStore, ids: seq<string>, allowed: bool) returns (result: ActionResult)
    requires w.Valid()
    modifies w
    ensures w.Valid()
    ensures result == Forbidden <==> !MayAdopt(old(w.durable), ids, allowed)
    ensures result == Forbidden ==> w.durable == old(w.durable)
    ensures w.durable == old(w.durable).(tasks := w.durable.tasks)
    ensures result == Applied ==>
      && old(w.durable.tasks).Some? && w.durable.tasks.Some? && w.durable.destination.Some? && w.durable.generated.Some?
      && w.durable.tasks.value.pending.None? && w.durable.tasks.value.failure.Some?
      && |w.durable.tasks.value.registered| == |w.durable.generated.value.tasks|
      && forall i :: 0 <= i < |w.durable.tasks.value.registered| ==>
           var t := w.durable.tasks.value.registered[i];
           t.index == i && t.state == Reused && t.projectCodes == Some(w.durable.destination.value.taskProjectCodes)
  {
    hide MaySave, Coherent, LogOk, HistoryOf, TasksFit, RemembersTasks;
    w.Load();
    if !MayAdopt(w.run, ids, allowed) { return Forbidden; }
    TasksNeedPublication(w.past, w.run);
    FitOfWorking(w);
    var codes := w.run.destination.value.taskProjectCodes;
    var reply: ApiReply<seq<ApiTask>> := AskTasks();
    if reply.Lost? { return Interrupted; }
    if reply.Refused? || |reply.value| != |ids| { return Reported; }
    var live := reply.value;
    if exists i, c :: 0 <= i < |live| && c in codes
         && (live[i].projectCodes.None? || c !in live[i].projectCodes.value) { return Reported; }
    var failure := if w.run.tasks.value.failure.Some? then w.run.tasks.value.failure else Some(ADOPTION_FAILURE);
    var tasks := Tasks(AdoptedTasks(live, codes), None, failure);
    AdoptionFits(w.run, tasks, |live|);
    SetTasks(w, tasks);
    var s := w.SaveRun();
    result := Project(s);
  }
}
