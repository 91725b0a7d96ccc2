/** The durable record of one meeting-minutes run and the values it is made of. */
module MinutesRun {
  import opened Options

  datatype GitHubTarget = GitHubTarget(owner: string, repo: string, branch: Option<string>, pathPrefix: Option<string>)

  datatype Organization = Organization(id: string, name: string)

  datatype Destination = Destination(
    id: string, projectId: string, name: string, channel: string, github: GitHubTarget,
    organization: Organization, taskProjectCodes: seq<string>, contextProject: string, taskBoardTargetId: string)

  datatype Mode = Observe | Required

  datatype ContextStatus = Resolved | ConfirmedEmpty | Partial | Unavailable

  datatype Identity = Identity(runId: string, projectCode: string, transcriptSha: string)

  datatype ContextReceipt = ContextReceipt(
    receiptId: string, checksum: string, status: ContextStatus, identity: Identity)

  datatype Context = Context(
    receiptId: string, checksum: string, status: ContextStatus, receipt: Option<ContextReceipt>)

  /** A task as the minutes propose it; the parts that an edit of its card can change. */
  datatype TaskDraft = TaskDraft(title: string, dueAt: Option<string>, assignee: Option<string>)

  /** Generated minutes; `rest` stands for references, attestation and what else they say of tasks. */
  datatype Minutes = Minutes(title: string, overview: string, body: string, rest: string, tasks: seq<TaskDraft>)

  /** What no edit changes once the minutes are published. */
  datatype PublishedText = PublishedText(title: string, overview: string, body: string, rest: string, taskCount: nat)

  function TextOf(m: Minutes): PublishedText {
    PublishedText(m.title, m.overview, m.body, m.rest, |m.tasks|)
  }

  datatype GitHubRecords = GitHubRecords(transcriptPath: string, minutesPath: string, minutesUrl: string)

  datatype TaskState = Unset | Registered | Reused | NeedsReview | Removed

  datatype Task = Task(
    index: nat, title: string, taskId: string, state: TaskState, projectCodes: Option<seq<string>>,
    personId: Option<string>, personName: Option<string>)

  /** What a task creation sends. */
  datatype TaskInput = TaskInput(
    title: string, dueAt: Option<string>, personId: Option<string>, projectCodes: seq<string>)

  /** A task creation that was begun and is not known to have ended. */
  datatype PendingTask = PendingTask(index: nat, idempotencyKey: string, input: TaskInput)

  datatype TaskPart = Registration | Board | Card

  datatype TaskPoint = AssigneeResolution | TaskCreation | ScopeUpdate

  datatype TaskFailure = TaskFailure(
    index: nat, part: TaskPart, point: Option<TaskPoint>, message: string, code: Option<string>, status: Option<int>)

  datatype Tasks = Tasks(registered: seq<Task>, pending: Option<PendingTask>, failure: Option<TaskFailure>)

  datatype Slack = Slack(
    selectionTs: Option<string>, processingTs: Option<string>, parentTs: Option<string>,
    taskCardTs: Option<string>, posted: seq<nat>)

  const NO_SLACK := Slack(None, None, None, None, [])

  datatype Stage = TranscriptDownload | ContextResolve | ContextGate | Generation | GitHubSave
    | SlackPublish | TaskRegistration | StatusProjection

  datatype Failure = Failure(stage: string, message: string)

  /** For whom the run may be recovered by an administrator. */
  datatype Authorization = Authorization(tenantId: string, workspaceId: string)

  datatype Redo = Redo(revision: nat, githubDeleted: bool, deletedTaskIds: seq<string>, retracted: bool,
                       failure: Option<string>)

  datatype Lifecycle = Lifecycle(
    actionTs: string, deadlineAt: int, recovered: bool, claimed: bool, attempted: bool,
    fallbackOutcome: Option<bool>, outcomePersisted: bool, persistenceFailed: bool, projected: bool)

  datatype Delivery = Pending | Delivered

  datatype RunReceipt = RunReceipt(caseId: Option<string>, key: string, status: Delivery, receiptId: Option<string>,
                                   failure: Option<string>)

  datatype Shown = ShownCompleted | ShownFailed

  datatype Readback = Readback(channel: string, ts: string, bodyHash: string, confirmedAt: string)

  datatype Status = AwaitingDestination | Routed | Generated | GitHubSaved | Posting | Completed | Failed

  /** `stage` and `code` are what the record's diagnostics say of the last failure. */
  datatype Run = Run(
    status: Status, revision: nat, destination: Option<Destination>, approvedBy: Option<string>,
    transcriptSha: Option<string>, context: Option<Context>, generated: Option<Minutes>,
    github: Option<GitHubRecords>, tasks: Option<Tasks>, slack: Slack,
    failure: Option<Failure>, stage: Option<Stage>, code: Option<string>, redo: Option<Redo>,
    lifecycle: Option<Lifecycle>, authorization: Option<Authorization>,
    outcomeCaseId: Option<string>, receiptRevision: nat, receipt: Option<RunReceipt>,
    statusProjection: Option<Shown>, readback: Option<Readback>, projectionFailure: Option<string>)
  {
    /** The arm that the record is under, if any. */
    function Action(): Option<string> {
      if lifecycle.Some? then Some(lifecycle.value.actionTs) else None
    }
  }

  /** The record that a file share creates. */
  const NEW_RUN := Run(AwaitingDestination, 0, None, None, None, None, None, None, None, NO_SLACK,
                       None, None, None, None, None, None, None, 0, None, None, None, None)

  // ---- What is published under a revision ----

  /** Everything a published revision shows to others; fixed once the GitHub records are saved. */
  datatype Publication = Publication(channel: string, text: PublishedText, github: GitHubRecords,
                                     receiptId: string, checksum: string)

  ghost predicate Published(r: Run) {
    r.github.Some? && r.generated.Some? && r.destination.Some? && r.context.Some?
  }

  ghost function PublicationOf(r: Run): Publication
    requires Published(r)
  {
    Publication(r.destination.value.channel, TextOf(r.generated.value), r.github.value,
                r.context.value.receiptId, r.context.value.checksum)
  }

  /** A revision that has published nothing yet. */
  ghost predicate Pristine(r: Run) {
    && r.github.None? && r.generated.None? && r.context.None? && r.destination.None?
    && r.tasks.None? && r.slack.parentTs.None? && r.slack.posted == [] && r.redo.None? && r.receipt.None?
  }

  predicate IsRegistered(registered: seq<Task>, i: nat) {
    exists k :: 0 <= k < |registered| && registered[k].index == i
  }

  /** Each draft has at most one task, and tasks are created in the order of the drafts. */
  ghost predicate TasksFit(t: Tasks, count: nat) {
    && (forall k :: 0 <= k < |t.registered| ==> t.registered[k].index < count)
    && (forall j, k :: 0 <= j < k < |t.registered| ==> t.registered[j].index != t.registered[k].index)
    && (t.pending.Some? ==>
          && t.pending.value.index < count
          && forall i: nat :: i < t.pending.value.index ==> IsRegistered(t.registered, i))
  }

  /** The stage ladder of one record. */
  ghost predicate WellFormed(r: Run) {
    && (r.github.Some? ==> Published(r) && r.transcriptSha.Some?)
    && (r.slack.parentTs.Some? || r.status == Completed ==> r.github.Some?)
    && (r.tasks.Some? ==> r.github.Some? && TasksFit(r.tasks.value, |r.generated.value.tasks|))
    && (r.slack.posted != [] ==> r.slack.parentTs.Some?)
    && (forall i :: 0 <= i < |r.slack.posted| ==> r.slack.posted[i] == i)
    && (r.redo.Some? ==> r.redo.value.revision == r.revision && r.github.Some?)
    && (r.receipt.Some? && r.receipt.value.status == Delivered ==> r.receipt.value.caseId == r.outcomeCaseId)
  }

  /** What a later record of the same revision keeps of an earlier one. */
  ghost predicate Evolves(s: Run, r: Run)
    requires WellFormed(s) && WellFormed(r)
  {
    && (s.github.Some? ==> r.github.Some? && PublicationOf(r) == PublicationOf(s))
    && (s.slack.parentTs.Some? ==> r.slack.parentTs == s.slack.parentTs)
    && |s.slack.posted| <= |r.slack.posted|
    && (s.redo.Some? ==>
          && r.redo.Some?
          && (s.redo.value.githubDeleted ==> r.redo.value.githubDeleted)
          && s.redo.value.deletedTaskIds <= r.redo.value.deletedTaskIds
          && (s.redo.value.retracted ==> r.redo.value.retracted))
    && (s.receipt.Some? && s.receipt.value.status == Delivered ==> r.receipt == s.receipt)
    && (s.github.Some? ==>
          && s.receiptRevision <= r.receiptRevision
          && (s.receiptRevision == r.receiptRevision && s.outcomeCaseId.Some? ==> r.outcomeCaseId == s.outcomeCaseId))
  }

  ghost predicate InScope(t: Task) {
    t.state == Unset || t.state == Registered
  }

  /** All external output of the revision has been taken back. */
  ghost predicate Cleaned(r: Run) {
    && r.redo.Some? && r.redo.value.githubDeleted
    && (r.tasks.Some? ==>
          && r.tasks.value.pending.None?
          && forall i :: 0 <= i < |r.tasks.value.registered| && InScope(r.tasks.value.registered[i]) ==>
               r.tasks.value.registered[i].taskId in r.redo.value.deletedTaskIds)
    && (r.slack.parentTs.Some? ==> r.redo.value.retracted)
  }

  lemma EvolvesReflexive(r: Run)
    requires WellFormed(r)
    ensures Evolves(r, r)
  {
  }

  lemma EvolvesTransitive(a: Run, b: Run, c: Run)
    requires WellFormed(a) && WellFormed(b) && WellFormed(c) && Evolves(a, b) && Evolves(b, c)
    ensures Evolves(a, c)
  {
  }
}
