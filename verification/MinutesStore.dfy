/**
 * The stored record of one run together with the delivery that is working on it. A delivery may crash at
 * every external call and every save; a save may also fail, with or without having been written.
 */
module MinutesStore {
  import opened Options
  import opened MinutesRun
  import opened MinutesLog

  /** How a step of a delivery ends: it goes on, it throws, or the process is gone. */
  datatype Signal = Done | Threw(message: string) | Crashed

  /** What comes back from an external call. */
  datatype Reply<T> = Answer(value: T) | Error(message: string) | Crash

  /** An error of the Task API, as far as it is looked at. */
  datatype ApiError = ApiError(message: string, code: Option<string>, status: Option<int>)

  /** What comes back from the Task API; the process may be gone before it does. */
  datatype ApiReply<T> = Got(value: T) | Refused(error: ApiError) | Lost

  /** A task as the Task API returns it. */
  datatype ApiTask = ApiTask(id: string, title: string, version: Option<int>, projectCodes: Option<seq<string>>,
                             personId: Option<string>, personName: Option<string>)

  /** The Task API's code for a mutation that it refuses before changing anything. */
  const NOT_READY := "canonical_task_mutation_not_ready"

  method AskTasks<T(0)>() returns (reply: ApiReply<T>)
  {
    reply := *;
  }

  /** An external call whose effect on the run's own channels is nil or is recorded separately. */
  method Ask<T(0)>() returns (reply: Reply<T>)
  {
    reply := *;
  }

  /** How often something outside the model happens. */
  method AnyNumber() returns (n: nat)
  {
    var k: int := *;
    n := if k < 0 then 0 else k;
  }

  datatype Source = Source(workspaceId: string, appId: string, channelId: string, threadTs: string)

  class RunStore {
    const env: Env
    const source: Source
    var durable: Run
    /** The working copy of the delivery at hand. */
    var run: Run
    ghost var log: seq<Event>
    ghost var past: History

    ghost predicate Valid()
      reads this`durable, this`log, this`past
    {
      LogOk(env, log) && past == HistoryOf(log) && Coherent(past) && durable == Durable(past)
    }

    /** The delivery may write its working copy at any moment. */
    ghost predicate Working()
      reads this
    {
      Valid() && MaySave(past, run) && run.revision <= past.current
    }

    constructor (env: Env, source: Source)
      ensures Valid() && durable == NEW_RUN && log == [] && this.env == env && this.source == source
    {
      this.env, this.source := env, source;
      durable, run := NEW_RUN, NEW_RUN;
      log, past := [], START;
    }

    ghost method Record(e: Event)
      requires Valid() && !e.Saved? && Permitted(env, past, e)
      modifies this`log, this`past
      ensures Valid() && log == old(log) + [e] && past == After(old(past), e)
    {
      AppendOk(env, log, e);
      AfterKeepsCoherent(env, past, e);
      log, past := log + [e], After(past, e);
    }

    /** Start a delivery from the durable record. */
    method Load()
      requires Valid()
      modifies this
      ensures Working() && run == durable == old(durable)
      ensures log == old(log) + [Begin] && past == After(old(past), Begin)
    {
      Record(Begin);
      run := durable;
    }

    /** Write a record: done, lost without a trace, written but reported as failed, or a crash on either side. */
    method Save(r: Run) returns (s: Signal)
      requires Valid() && MaySave(past, r)
      modifies this`durable, this`log, this`past
      ensures Valid() && MaySave(past, r)
      ensures s == Done ==> durable == r && past == After(old(past), Saved(r)) && log == old(log) + [Saved(r)]
      ensures (durable == old(durable) && past == old(past) && log == old(log))
           || (durable == r && past == After(old(past), Saved(r)) && log == old(log) + [Saved(r)])
    {
      var written: bool := *;
      if written {
        AppendOk(env, log, Saved(r));
        SaveKeepsCoherent(past, r);
        durable := r;
        log, past := log + [Saved(r)], After(past, Saved(r));
      }
      var crashed, acknowledged: bool := *, *;
      s := if crashed then Crashed else if written && acknowledged then Done else Threw("storage_write_failed");
    }

    /** `saveMeetingMinutesRun(fs, run)`. */
    method SaveRun() returns (s: Signal)
      requires Working()
      modifies this`durable, this`log, this`past
      ensures Working()
      ensures s == Done ==> durable == run && past == After(old(past), Saved(run))
      ensures (durable == old(durable) && past == old(past) && log == old(log))
           || (durable == run && past == After(old(past), Saved(run)) && log == old(log) + [Saved(run)])
    {
      hide MaySave, Coherent, LogOk, HistoryOf;
      s := Save(run);
    }
  }

  // ---- Which changes to the working copy keep it writable ----

  /** The record without the fields that no guarantee speaks about. */
  ghost function Guarded(r: Run): Run {
    r.(status := AwaitingDestination, approvedBy := None, failure := None, stage := None, code := None,
       authorization := None, statusProjection := None, readback := None, projectionFailure := None,
       slack := r.slack.(selectionTs := None, processingTs := None, taskCardTs := None))
  }

  lemma GuardedParts(r: Run, r': Run)
    requires Guarded(r) == Guarded(r')
    ensures r.slack.posted == r'.slack.posted && r.slack.parentTs == r'.slack.parentTs
    ensures r.revision == r'.revision && r.redo == r'.redo && r.receipt == r'.receipt && r.github == r'.github
    ensures r.generated == r'.generated && r.destination == r'.destination && r.context == r'.context
    ensures r.transcriptSha == r'.transcriptSha && r.lifecycle == r'.lifecycle && r.tasks == r'.tasks
    ensures r.outcomeCaseId == r'.outcomeCaseId && r.receiptRevision == r'.receiptRevision
  {
    assert Guarded(r).slack.posted == r.slack.posted && Guarded(r').slack.posted == r'.slack.posted;
    assert Guarded(r).slack.parentTs == r.slack.parentTs && Guarded(r').slack.parentTs == r'.slack.parentTs;
    assert Guarded(r).revision == r.revision && Guarded(r').revision == r'.revision;
    assert Guarded(r).redo == r.redo && Guarded(r').redo == r'.redo;
    assert Guarded(r).tasks == r.tasks && Guarded(r').tasks == r'.tasks;
    assert Guarded(r).receipt == r.receipt && Guarded(r').receipt == r'.receipt;
  }

  lemma MaySaveUnguarded(h: History, r: Run, r': Run)
    requires MaySave(h, r) && r.revision <= h.current && Guarded(r) == Guarded(r')
    requires r'.status == Completed ==> r.status == Completed || r.github.Some?
    ensures MaySave(h, r')
  {
    hide Guarded, TasksFit, IsRegistered, Cleaned;
    GuardedParts(r, r');
  }

  /** Tasks may change as long as each draft keeps the task it has, and what was requested stays accounted for. */
  lemma MaySaveTasks(h: History, r: Run, tasks: Tasks)
    requires MaySave(h, r) && r.revision <= h.current && r.github.Some? && r.generated.Some?
    requires TasksFit(tasks, |r.generated.value.tasks|) && Accounted(h, r.(tasks := Some(tasks)))
    ensures MaySave(h, r.(tasks := Some(tasks)))
  {
    hide TasksFit, IsRegistered, Cleaned;
  }

  /** A change of tasks that forgets neither a registered draft nor the pending one. */
  ghost predicate RemembersTasks(before: Option<Tasks>, after: Tasks) {
    before.Some? ==>
      && (forall i: nat :: IsRegistered(before.value.registered, i) ==> IsRegistered(after.registered, i))
      && (before.value.pending.Some? ==>
            after.pending == before.value.pending || IsRegistered(after.registered, before.value.pending.value.index))
  }

  lemma RemembersAccounted(h: History, r: Run, tasks: Tasks)
    requires Coherent(h) && Accounted(h, r) && RemembersTasks(r.tasks, tasks)
    ensures Accounted(h, r.(tasks := Some(tasks)))
  {
    hide MaySave, IsRegistered;
  }

  /** Before the GitHub records are saved, destination, context and minutes are still open. */
  lemma MaySaveDraft(h: History, r: Run, destination: Option<Destination>, context: Option<Context>,
                     generated: Option<Minutes>)
    requires MaySave(h, r) && r.revision <= h.current && r.github.None?
    ensures MaySave(h, r.(destination := destination, context := context, generated := generated))
  {
  }

  /** Afterwards only what is not published may change: the routing metadata and the context's own copy. */
  lemma MaySaveRouting(h: History, r: Run, destination: Destination, context: Context)
    requires MaySave(h, r) && r.revision <= h.current && r.destination.Some? && r.context.Some?
    requires destination.channel == r.destination.value.channel
    requires context.receiptId == r.context.value.receiptId && context.checksum == r.context.value.checksum
    ensures MaySave(h, r.(destination := Some(destination), context := Some(context)))
  {
  }

  lemma MaySaveHash(h: History, r: Run, sha: string)
    requires MaySave(h, r) && r.revision <= h.current && r.transcriptSha.None?
    ensures MaySave(h, r.(transcriptSha := Some(sha)))
  {
  }

  lemma MaySaveGitHub(h: History, r: Run, records: GitHubRecords)
    requires MaySave(h, r) && r.revision <= h.current && r.github.None?
    requires r.destination.Some? && r.context.Some? && r.generated.Some? && r.transcriptSha.Some?
    ensures MaySave(h, r.(github := Some(records)))
  {
  }

  lemma MaySaveParent(h: History, r: Run, ts: string)
    requires MaySave(h, r) && r.revision <= h.current && r.github.Some? && r.slack.parentTs.None?
    ensures MaySave(h, r.(slack := r.slack.(parentTs := Some(ts))))
  {
  }

  lemma MaySavePosted(h: History, r: Run)
    requires MaySave(h, r) && r.revision <= h.current && r.slack.parentTs.Some?
    ensures MaySave(h, r.(slack := r.slack.(posted := r.slack.posted + [|r.slack.posted|])))
  {
  }

  /** A case may be declared while no receipt has been delivered. */
  lemma MaySaveCase(h: History, r: Run, caseId: Option<string>)
    requires MaySave(h, r) && r.revision <= h.current && r.outcomeCaseId.None?
    requires r.receipt.Some? ==> r.receipt.value.status == Pending
    ensures MaySave(h, r.(outcomeCaseId := caseId))
  {
  }
}
