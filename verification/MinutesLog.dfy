/**
 * What one run's durable record and external effects may do, event by event. A log is the full history
 * of saves and of attempted effects; `LogOk` says that every event was permitted by what came before
 * it, and the protocol's guarantees are facts about every such log.
 */
module MinutesLog {
  import opened Options
  import opened Decimal
  import opened MinutesRun

  /** The parts of a run that never change, and the rendering of a body into thread messages. */
  datatype Env = Env(runId: string, fileName: string, narrative: string -> seq<string>)

  /** What an edit of a task card sets; an absent part is left as it is. */
  datatype Edit = Edit(index: nat, title: string, dueAt: Option<string>, assignee: Option<Option<string>>)

  function Edited(drafts: seq<TaskDraft>, e: Edit): (edited: seq<TaskDraft>)
    ensures |edited| == |drafts|
  {
    if e.index >= |drafts| then drafts
    else
      var d := drafts[e.index];
      drafts[e.index := TaskDraft(e.title, if e.dueAt.Some? then e.dueAt else d.dueAt,
                                  if e.assignee.Some? then e.assignee.value else d.assignee)]
  }

  datatype Event =
    | Begin                                   // a delivery starts from the durable record
    | Saved(run: Run)
    | ParentPost(revision: nat, clientMsgId: string, channel: string, file: string, text: string)
    | ChunkPost(revision: nat, clientMsgId: string, channel: string, thread: string, file: string, text: string,
                index: nat, total: nat)
    | GitHubDelete(revision: nat, records: GitHubRecords)
    | GitHubDeleted(revision: nat, records: GitHubRecords)
    | TaskDelete(revision: nat, taskId: string)
    | TaskDeleted(revision: nat, taskId: string)
    | Retract(revision: nat, parentTs: string)
    | Retracted(revision: nat, parentTs: string)
    | StatusUpdate                            // the recovery's projection of a failed run
    | StatusUpdateFailed
    | Fallback
    | ReceiptSent(revision: nat, receiptRevision: nat, externalId: string, caseId: Option<string>)
    | TaskCreate(revision: nat, pending: PendingTask)
    | TaskRefused(revision: nat, index: nat)  // the creation is known to have changed nothing
    | TaskEdited(revision: nat, edit: Edit)   // the task's own record was changed

  /**
   * The past that later events depend on: the latest record of each revision, the revision of the durable
   * record, acknowledged clean-ups, the recovery effects since the record was last armed, task creations that
   * were requested and not refused, and the edit that the delivery at hand has made.
   */
  datatype History = History(
    latest: map<nat, Run>, current: nat, acknowledged: set<Event>,
    updates: nat, fallbacks: nat, updateFailed: bool,
    asked: map<(nat, nat), PendingTask>, edit: Option<(nat, Edit)>)
  {
    ghost predicate Has(revision: nat) {
      revision in latest && WellFormed(latest[revision])
    }
  }

  const START := History(map[0 := NEW_RUN], 0, {}, 0, 0, false, map[], None)

  ghost function Durable(h: History): Run
    requires h.current in h.latest
  {
    h.latest[h.current]
  }

  ghost function After(h: History, e: Event): History {
    match e
    case Begin => h.(updateFailed := false, edit := None)
    case Saved(r) =>
      var rearmed := h.current in h.latest && r.Action() != Durable(h).Action();
      h.(latest := h.latest[r.revision := r], current := r.revision,
         updates := if rearmed then 0 else h.updates, fallbacks := if rearmed then 0 else h.fallbacks,
         updateFailed := if rearmed then false else h.updateFailed)
    case GitHubDeleted(_, _) => h.(acknowledged := h.acknowledged + {e})
    case TaskDeleted(_, _) => h.(acknowledged := h.acknowledged + {e})
    case Retracted(_, _) => h.(acknowledged := h.acknowledged + {e})
    case StatusUpdate => h.(updates := h.updates + 1)
    case StatusUpdateFailed => h.(updateFailed := true)
    case Fallback => h.(fallbacks := h.fallbacks + 1)
    case TaskCreate(v, p) => h.(asked := h.asked[(v, p.index) := p])
    case TaskRefused(v, i) => h.(asked := h.asked - {(v, i)})
    case TaskEdited(v, e) => h.(edit := Some((v, e)))
    case _ => h
  }

  // ---- Messages ----

  function ParentKey(runId: string, revision: nat): string {
    runId + "-revision-" + Print(revision) + "-parent"
  }

  function ChunkKey(runId: string, revision: nat, index: nat): string {
    runId + "-revision-" + Print(revision) + "-chunk-" + Print(index)
  }

  function ParentText(m: PublishedText): string {
    "*" + m.title + "*\n" + m.overview
  }

  /** The run id under which a receipt is known outside; the suffix is absent before the first correction. */
  function ExternalId(runId: string, revision: nat, receiptRevision: nat): string {
    "mana:meeting-minutes:" + runId + ":revision:" + Print(revision)
      + (if receiptRevision > 0 then ":receipt-revision:" + Print(receiptRevision) else "")
  }

  // ---- Which events are permitted ----

  /** The clean-ups that a record claims are acknowledged ones. */
  ghost predicate ClaimsAcknowledged(h: History, r: Run)
    requires WellFormed(r)
  {
    r.redo.Some? ==>
      && (r.redo.value.githubDeleted ==> GitHubDeleted(r.revision, r.github.value) in h.acknowledged)
      && (forall id :: id in r.redo.value.deletedTaskIds ==> TaskDeleted(r.revision, id) in h.acknowledged)
      && (r.redo.value.retracted ==>
            r.slack.parentTs.Some? && Retracted(r.revision, r.slack.parentTs.value) in h.acknowledged)
  }

  /** A transcript hash that any record carries is carried by all later ones. */
  ghost predicate KeepsHash(h: History, r: Run) {
    forall v :: v in h.latest && h.latest[v].transcriptSha.Some? ==> r.transcriptSha == h.latest[v].transcriptSha
  }

  /** Once the recovery has touched Slack, the record says so until it is armed anew. */
  ghost predicate KeepsClaim(h: History, r: Run) {
    h.updates > 0 && h.current in h.latest && r.Action() == Durable(h).Action() ==>
      r.lifecycle.Some? && r.lifecycle.value.claimed
  }

  /** A task creation that was requested ends registered, or stays pending as it was requested. */
  ghost predicate Accounted(h: History, r: Run) {
    forall i: nat :: (r.revision, i) in h.asked ==>
      && r.tasks.Some?
      && (IsRegistered(r.tasks.value.registered, i) || r.tasks.value.pending == Some(h.asked[(r.revision, i)]))
  }

  /** The drafts of published minutes, or what the edit of the delivery at hand makes of them. */
  ghost predicate DraftsKept(h: History, r: Run) {
    h.Has(r.revision) && h.latest[r.revision].github.Some? && r.generated.Some? ==>
      var before := h.latest[r.revision].generated.value.tasks;
      || r.generated.value.tasks == before
      || (h.edit.Some? && h.edit.value.0 == r.revision && r.generated.value.tasks == Edited(before, h.edit.value.1))
  }

  /** A record may be written over the durable one. */
  ghost predicate MaySave(h: History, r: Run) {
    && WellFormed(r) && ClaimsAcknowledged(h, r) && KeepsHash(h, r) && KeepsClaim(h, r)
    && Accounted(h, r) && DraftsKept(h, r)
    && (h.Has(r.revision) ==> Evolves(h.latest[r.revision], r))
    && (forall v :: v in h.latest && v > r.revision ==> Pristine(h.latest[v]))
    && (r.revision > h.current ==>
          && r.revision == h.current + 1 && Pristine(r)
          && h.Has(h.current) && Cleaned(Durable(h)))
  }

  ghost predicate Permitted(env: Env, h: History, e: Event) {
    match e
    case Saved(r) => MaySave(h, r)
    case ParentPost(v, id, channel, file, text) =>
      && h.Has(v) && h.latest[v].github.Some? && id == ParentKey(env.runId, v)
      && var p := PublicationOf(h.latest[v]);
         channel == p.channel && file == env.fileName && text == ParentText(p.text)
    case ChunkPost(v, id, channel, thread, file, text, index, total) =>
      && h.Has(v) && h.latest[v].slack.parentTs == Some(thread) && id == ChunkKey(env.runId, v, index)
      && var p := PublicationOf(h.latest[v]);
         && channel == p.channel && file == env.fileName && total == |env.narrative(p.text.body)|
         && index < total && text == env.narrative(p.text.body)[index]
    case GitHubDelete(v, records) =>
      && h.Has(v) && h.latest[v].redo.Some? && !h.latest[v].redo.value.githubDeleted
      && h.latest[v].github == Some(records)
    case TaskDelete(v, id) =>
      h.Has(v) && h.latest[v].redo.Some? && id !in h.latest[v].redo.value.deletedTaskIds
    case Retract(v, ts) =>
      && h.Has(v) && h.latest[v].redo.Some? && !h.latest[v].redo.value.retracted
      && h.latest[v].slack.parentTs == Some(ts)
    case StatusUpdate =>
      && h.updates == 0 && h.fallbacks == 0 && h.Has(h.current)
      && Durable(h).lifecycle.Some? && Durable(h).lifecycle.value.claimed
    case StatusUpdateFailed => h.updates > 0
    case Fallback => h.updates > 0 && h.fallbacks == 0 && h.updateFailed
    case ReceiptSent(v, k, id, caseId) =>
      && h.Has(v) && h.latest[v].github.Some?
      && h.latest[v].receiptRevision == k && h.latest[v].outcomeCaseId == caseId
      && id == ExternalId(env.runId, v, k)
    case TaskCreate(v, p) =>
      && h.Has(v) && h.latest[v].tasks.Some? && h.latest[v].tasks.value.pending == Some(p)
      && !IsRegistered(h.latest[v].tasks.value.registered, p.index)
    case TaskRefused(v, _) => h.Has(v)
    case _ => true
  }

  ghost function HistoryOf(log: seq<Event>): History {
    if log == [] then START else After(HistoryOf(log[..|log| - 1]), log[|log| - 1])
  }

  ghost predicate LogOk(env: Env, log: seq<Event>) {
    forall i :: 0 <= i < |log| ==> Permitted(env, HistoryOf(log[..i]), log[i])
  }

  // ---- What every history satisfies ----

  ghost predicate Coherent(h: History) {
    && h.Has(h.current) && MaySave(h, Durable(h)) && h.fallbacks <= h.updates
    && (forall v :: v in h.latest ==>
          WellFormed(h.latest[v]) && h.latest[v].revision == v && Accounted(h, h.latest[v]))
    && (forall k :: k in h.asked ==> k.0 in h.latest && h.asked[k].index == k.1)
  }

  lemma SaveKeepsCoherent(h: History, r: Run)
    requires Coherent(h) && MaySave(h, r)
    ensures Coherent(After(h, Saved(r)))
  {
    hide Evolves, Pristine, Cleaned, TasksFit, IsRegistered, Published;
    EvolvesReflexive(r);
  }

  lemma CreateKeepsCoherent(h: History, v: nat, p: PendingTask)
    requires Coherent(h) && h.Has(v) && h.latest[v].tasks.Some? && h.latest[v].tasks.value.pending == Some(p)
    ensures Coherent(After(h, TaskCreate(v, p)))
  {
    hide Evolves, WellFormed, Pristine, Cleaned;
  }

  lemma RefusalKeepsCoherent(h: History, v: nat, i: nat)
    requires Coherent(h)
    ensures Coherent(After(h, TaskRefused(v, i)))
  {
    hide Evolves, WellFormed, Pristine, Cleaned;
  }

  /** Events that change neither records nor requested creations. */
  ghost predicate OnlyNoted(e: Event) {
    !e.Saved? && !e.TaskCreate? && !e.TaskRefused?
  }

  lemma NoteKeepsCoherent(env: Env, h: History, e: Event)
    requires Coherent(h) && Permitted(env, h, e) && OnlyNoted(e)
    ensures Coherent(After(h, e))
  {
    hide Evolves, WellFormed, Pristine, Cleaned, IsRegistered;
  }

  lemma AfterKeepsCoherent(env: Env, h: History, e: Event)
    requires Coherent(h) && Permitted(env, h, e)
    ensures Coherent(After(h, e))
  {
    hide Coherent, MaySave, WellFormed, IsRegistered, After;
    match e {
      case Saved(r) => SaveKeepsCoherent(h, r);
      case TaskCreate(v, p) => CreateKeepsCoherent(h, v, p);
      case TaskRefused(v, i) => RefusalKeepsCoherent(h, v, i);
      case _ => NoteKeepsCoherent(env, h, e);
    }
  }

  lemma {:induction false} LogIsCoherent(env: Env, log: seq<Event>)
    requires LogOk(env, log)
    ensures Coherent(HistoryOf(log))
  {
    if log != [] {
      var shorter := log[..|log| - 1];
      PrefixOk(env, log, |log| - 1);
      LogIsCoherent(env, shorter);
      AfterKeepsCoherent(env, HistoryOf(shorter), log[|log| - 1]);
    }
  }

  lemma PrefixOk(env: Env, log: seq<Event>, n: nat)
    requires n <= |log| && LogOk(env, log)
    ensures LogOk(env, log[..n])
  {
    forall i | 0 <= i < n ensures Permitted(env, HistoryOf(log[..n][..i]), log[..n][i]) {
      assert log[..n][..i] == log[..i];
    }
  }

  lemma AppendOk(env: Env, log: seq<Event>, e: Event)
    requires LogOk(env, log) && Permitted(env, HistoryOf(log), e)
    ensures LogOk(env, log + [e]) && HistoryOf(log + [e]) == After(HistoryOf(log), e)
  {
    var longer := log + [e];
    assert longer[..|log|] == log;
    forall i | 0 <= i < |longer| ensures Permitted(env, HistoryOf(longer[..i]), longer[i]) {
      if i < |log| {
        assert longer[..i] == log[..i];
      }
    }
  }

  lemma StepInLog(env: Env, log: seq<Event>, i: nat)
    requires i < |log| && LogOk(env, log)
    ensures Coherent(HistoryOf(log[..i])) && Permitted(env, HistoryOf(log[..i]), log[i])
  {
    PrefixOk(env, log, i);
    LogIsCoherent(env, log[..i]);
  }

  lemma HistoryStep(log: seq<Event>, i: nat)
    requires i < |log|
    ensures HistoryOf(log[..i + 1]) == After(HistoryOf(log[..i]), log[i])
  {
    assert log[..i + 1][..i] == log[..i];
  }

  // ---- Revisions only evolve ----

  lemma SaveEvolves(h: History, r: Run, v: nat)
    requires MaySave(h, r) && h.Has(v)
    ensures After(h, Saved(r)).Has(v) && Evolves(h.latest[v], After(h, Saved(r)).latest[v])
  {
  }

  lemma SaveKeepsHash(h: History, r: Run, v: nat)
    requires MaySave(h, r) && v in h.latest && h.latest[v].transcriptSha.Some?
    ensures After(h, Saved(r)).latest[v].transcriptSha == h.latest[v].transcriptSha
  {
  }

  lemma OtherEventsKeepRecords(h: History, e: Event)
    requires !e.Saved?
    ensures After(h, e).latest == h.latest
  {
  }

  lemma StepEvolves(env: Env, h: History, e: Event, v: nat)
    requires Coherent(h) && Permitted(env, h, e) && h.Has(v)
    ensures After(h, e).Has(v) && Evolves(h.latest[v], After(h, e).latest[v])
  {
    if e.Saved? {
      hide MaySave;
      SaveEvolves(h, e.run, v);
    } else {
      OtherEventsKeepRecords(h, e);
    }
  }

  lemma StepKeepsHash(env: Env, h: History, e: Event, v: nat)
    requires Permitted(env, h, e) && v in h.latest && h.latest[v].transcriptSha.Some?
    ensures v in After(h, e).latest && After(h, e).latest[v].transcriptSha == h.latest[v].transcriptSha
  {
    if e.Saved? {
      hide MaySave;
      SaveKeepsHash(h, e.run, v);
    } else {
      OtherEventsKeepRecords(h, e);
    }
  }

  /** The record of `v` after `j` events is a later form of that after `i` events. */
  ghost predicate EvolvesBetween(log: seq<Event>, i: nat, j: nat, v: nat)
    requires i <= |log| && j <= |log|
  {
    && HistoryOf(log[..i]).Has(v) && HistoryOf(log[..j]).Has(v)
    && Evolves(HistoryOf(log[..i]).latest[v], HistoryOf(log[..j]).latest[v])
  }

  lemma EvolvesInOneStep(env: Env, log: seq<Event>, j: nat, v: nat)
    requires j < |log| && LogOk(env, log) && HistoryOf(log[..j]).Has(v)
    ensures EvolvesBetween(log, j, j + 1, v)
  {
    hide Evolves, WellFormed, After, Permitted, HistoryOf, Coherent, LogOk;
    StepInLog(env, log, j);
    StepEvolves(env, HistoryOf(log[..j]), log[j], v);
    HistoryStep(log, j);
  }

  lemma EvolvesNotAtAll(log: seq<Event>, i: nat, v: nat)
    requires i <= |log| && HistoryOf(log[..i]).Has(v)
    ensures EvolvesBetween(log, i, i, v)
  {
  }

  lemma EvolvesOn(log: seq<Event>, i: nat, j: nat, k: nat, v: nat)
    requires i <= |log| && j <= |log| && k <= |log|
    requires EvolvesBetween(log, i, j, v) && EvolvesBetween(log, j, k, v)
    ensures EvolvesBetween(log, i, k, v)
  {
    hide Evolves, WellFormed, HistoryOf;
    EvolvesTransitive(HistoryOf(log[..i]).latest[v], HistoryOf(log[..j]).latest[v], HistoryOf(log[..k]).latest[v]);
  }

  lemma IsThere(log: seq<Event>, i: nat, j: nat, v: nat)
    requires i <= |log| && j <= |log| && EvolvesBetween(log, i, j, v)
    ensures HistoryOf(log[..j]).Has(v)
  {
  }

  lemma {:induction false} EvolvesAlways(env: Env, log: seq<Event>, i: nat, j: nat, v: nat)
    requires i <= j <= |log| && LogOk(env, log) && HistoryOf(log[..i]).Has(v)
    ensures EvolvesBetween(log, i, j, v)
    decreases j
  {
    hide *;
    if i < j {
      EvolvesAlways(env, log, i, j - 1, v);
      IsThere(log, i, j - 1, v);
      EvolvesInOneStep(env, log, j - 1, v);
      EvolvesOn(log, i, j - 1, j, v);
    } else {
      EvolvesNotAtAll(log, i, v);
    }
  }

  lemma RevisionEvolves(env: Env, log: seq<Event>, i: nat, j: nat, v: nat)
    requires i <= j <= |log| && LogOk(env, log) && HistoryOf(log[..i]).Has(v)
    ensures HistoryOf(log[..j]).Has(v)
    ensures Evolves(HistoryOf(log[..i]).latest[v], HistoryOf(log[..j]).latest[v])
  {
    hide Evolves, WellFormed, HistoryOf, LogOk;
    EvolvesAlways(env, log, i, j, v);
  }

  /** The record of `v` carries this transcript hash. */
  ghost predicate CarriesHash(h: History, v: nat, sha: string) {
    v in h.latest && h.latest[v].transcriptSha == Some(sha)
  }

  lemma {:induction false} HashStays(env: Env, log: seq<Event>, i: nat, j: nat, v: nat, sha: string)
    requires i <= j <= |log| && LogOk(env, log) && CarriesHash(HistoryOf(log[..i]), v, sha)
    ensures CarriesHash(HistoryOf(log[..j]), v, sha)
    decreases j
  {
    hide *;
    if i < j {
      HashStays(env, log, i, j - 1, v, sha);
      HashStaysOnce(env, log, j - 1, v, sha);
    }
  }

  lemma HashStaysOnce(env: Env, log: seq<Event>, j: nat, v: nat, sha: string)
    requires j < |log| && LogOk(env, log) && CarriesHash(HistoryOf(log[..j]), v, sha)
    ensures CarriesHash(HistoryOf(log[..j + 1]), v, sha)
  {
    hide HistoryOf, Permitted, After;
    StepKeepsHash(env, HistoryOf(log[..j]), log[j], v);
    HistoryStep(log, j);
  }

  lemma SavedIsLatest(log: seq<Event>, n: nat)
    requires n < |log| && log[n].Saved?
    ensures log[n].run.revision in HistoryOf(log[..n + 1]).latest
    ensures HistoryOf(log[..n + 1]).latest[log[n].run.revision] == log[n].run
  {
    HistoryStep(log, n);
  }

  /** What a saved record fixed still holds for the latest record of its revision. */
  lemma SavedEvolves(env: Env, log: seq<Event>, i: nat, j: nat)
    requires i < j <= |log| && LogOk(env, log) && log[i].Saved?
    ensures WellFormed(log[i].run)
    ensures HistoryOf(log[..j]).Has(log[i].run.revision)
    ensures Evolves(log[i].run, HistoryOf(log[..j]).latest[log[i].run.revision])
  {
    hide HistoryOf;
    assert Permitted(env, HistoryOf(log[..i]), log[i]);
    SavedIsLatest(log, i);
    RevisionEvolves(env, log, i + 1, j, log[i].run.revision);
  }

  // ---- Idempotency keys ----

  ghost predicate IsPost(e: Event) {
    e.ParentPost? || e.ChunkPost?
  }

  ghost function PostKey(e: Event): string
    requires IsPost(e)
  {
    e.clientMsgId
  }

  lemma NumeralHasNoDash(n: nat)
    ensures '-' !in Print(n)
  {
  }

  lemma KeyParts(runId: string, revision: nat, tail: string, revision': nat, tail': string)
    ensures runId + "-revision-" + Print(revision) + "-" + tail == runId + "-revision-" + Print(revision') + "-" + tail'
        ==> revision == revision' && tail == tail'
  {
    var head := runId + "-revision-";
    var a, b := Print(revision) + ['-'] + tail, Print(revision') + ['-'] + tail';
    assert head + Print(revision) + "-" + tail == head + a;
    assert head + Print(revision') + "-" + tail' == head + b;
    assert a == (head + a)[|head|..] && b == (head + b)[|head|..];
    NumeralHasNoDash(revision);
    NumeralHasNoDash(revision');
    if a == b {
      SplitsOnce(Print(revision), tail, Print(revision'), tail', '-');
      PrintInjective(revision, revision');
    }
  }

  lemma ParentKeyForm(runId: string, revision: nat)
    ensures ParentKey(runId, revision) == runId + "-revision-" + Print(revision) + "-" + "parent"
  {
  }

  lemma ChunkKeyForm(runId: string, revision: nat, index: nat)
    ensures ChunkKey(runId, revision, index) == runId + "-revision-" + Print(revision) + "-" + ("chunk-" + Print(index))
  {
  }

  /** A key determines the kind of message, the revision and the chunk. */
  lemma KeysAreInjective(runId: string, v: nat, w: nat, i: nat, j: nat)
    ensures ParentKey(runId, v) == ParentKey(runId, w) ==> v == w
    ensures ChunkKey(runId, v, i) == ChunkKey(runId, w, j) ==> v == w && i == j
    ensures ParentKey(runId, v) != ChunkKey(runId, w, j)
  {
    ParentKeyForm(runId, v);
    ParentKeyForm(runId, w);
    ChunkKeyForm(runId, v, i);
    ChunkKeyForm(runId, w, j);
    KeyParts(runId, v, "parent", w, "parent");
    KeyParts(runId, v, "chunk-" + Print(i), w, "chunk-" + Print(j));
    KeyParts(runId, v, "parent", w, "chunk-" + Print(j));
    assert "parent"[0] == 'p' && ("chunk-" + Print(j))[0] == 'c';
    assert Print(i) == ("chunk-" + Print(i))[6..] && Print(j) == ("chunk-" + Print(j))[6..];
    ParseOfPrint(i);
    ParseOfPrint(j);
  }

  lemma PostIsOfItsRevision(env: Env, log: seq<Event>, i: nat, j: nat)
    requires i <= j < |log| && LogOk(env, log) && IsPost(log[i]) && IsPost(log[j])
    requires log[i].revision == log[j].revision
    ensures HistoryOf(log[..i]).Has(log[i].revision) && HistoryOf(log[..j]).Has(log[i].revision)
    ensures Evolves(HistoryOf(log[..i]).latest[log[i].revision], HistoryOf(log[..j]).latest[log[i].revision])
  {
    assert Permitted(env, HistoryOf(log[..i]), log[i]);
    RevisionEvolves(env, log, i, j, log[i].revision);
  }

  /**
   * Over any interleaving of deliveries, crashes, failed and unacknowledged saves and redos: two posts
   * under one idempotency key are the same message, to the same channel and thread.
   */
  lemma PostsWithOneKeyAreOneMessage(env: Env, log: seq<Event>, i: nat, j: nat)
    requires i < j < |log| && LogOk(env, log) && IsPost(log[i]) && IsPost(log[j])
    requires PostKey(log[i]) == PostKey(log[j])
    ensures log[i] == log[j]
  {
    var a, b := log[i], log[j];
    assert Permitted(env, HistoryOf(log[..i]), a) && Permitted(env, HistoryOf(log[..j]), b);
    var i', j' := if a.ChunkPost? then a.index else 0, if b.ChunkPost? then b.index else 0;
    KeysAreInjective(env.runId, a.revision, b.revision, i', j');
    KeysAreInjective(env.runId, b.revision, a.revision, j', i');
    PostIsOfItsRevision(env, log, i, j);
  }

  // ---- Records ----

  /** A transcript hash that was ever saved is in every later record, across redos. */
  lemma TranscriptHashIsFixed(env: Env, log: seq<Event>, i: nat, j: nat)
    requires i < j < |log| && LogOk(env, log) && log[i].Saved? && log[j].Saved?
    requires log[i].run.transcriptSha.Some?
    ensures log[j].run.transcriptSha == log[i].run.transcriptSha
  {
    SavedIsLatest(log, i);
    HashStays(env, log, i + 1, j, log[i].run.revision, log[i].run.transcriptSha.value);
    assert Permitted(env, HistoryOf(log[..j]), log[j]);
  }

  /**
   * In every saved record the stages stand on each other, and what one revision has published (the text of
   * the minutes, channel, GitHub records, context receipt and thread) is what it shows in every later record.
   */
  lemma PublicationIsFixed(env: Env, log: seq<Event>, i: nat, j: nat)
    requires i < j < |log| && LogOk(env, log) && log[i].Saved? && log[j].Saved?
    requires log[i].run.revision == log[j].run.revision
    ensures WellFormed(log[i].run) && WellFormed(log[j].run) && Evolves(log[i].run, log[j].run)
  {
    SavedEvolves(env, log, i, j);
    assert Permitted(env, HistoryOf(log[..j]), log[j]);
    EvolvesTransitive(log[i].run, HistoryOf(log[..j]).latest[log[i].run.revision], log[j].run);
  }

  // ---- Task drafts ----

  /** The latest record of a revision is published, with these drafts. */
  ghost predicate Drafted(h: History, v: nat, drafts: seq<TaskDraft>) {
    h.Has(v) && h.latest[v].github.Some? && h.latest[v].generated.value.tasks == drafts
  }

  /** The save at `k` writes an edit that its own delivery has made to a task, and it changes the drafts. */
  ghost predicate SavesEdit(log: seq<Event>, k: nat, v: nat)
    requires k < |log|
  {
    var h := HistoryOf(log[..k]);
    && log[k].Saved? && log[k].run.revision == v && log[k].run.generated.Some?
    && h.Has(v) && h.latest[v].github.Some? && h.edit.Some? && h.edit.value.0 == v
    && log[k].run.generated.value.tasks == Edited(h.latest[v].generated.value.tasks, h.edit.value.1)
    && log[k].run.generated.value.tasks != h.latest[v].generated.value.tasks
  }

  lemma StepKeepsDrafts(env: Env, log: seq<Event>, k: nat, v: nat, drafts: seq<TaskDraft>)
    requires k < |log| && LogOk(env, log) && Drafted(HistoryOf(log[..k]), v, drafts) && !SavesEdit(log, k, v)
    ensures Drafted(HistoryOf(log[..k + 1]), v, drafts)
  {
    hide HistoryOf;
    assert Permitted(env, HistoryOf(log[..k]), log[k]);
    HistoryStep(log, k);
  }

  lemma {:induction false} DraftsStay(env: Env, log: seq<Event>, i: nat, j: nat, v: nat, drafts: seq<TaskDraft>)
    requires i <= j <= |log| && LogOk(env, log) && Drafted(HistoryOf(log[..i]), v, drafts)
    requires forall k :: i <= k < j ==> !SavesEdit(log, k, v)
    ensures Drafted(HistoryOf(log[..j]), v, drafts)
    decreases j
  {
    hide *;
    if i < j {
      DraftsStay(env, log, i, j - 1, v, drafts);
      StepKeepsDrafts(env, log, j - 1, v, drafts);
    }
  }

  lemma SavedIsDrafted(env: Env, log: seq<Event>, i: nat)
    requires i < |log| && LogOk(env, log) && log[i].Saved? && log[i].run.github.Some?
    ensures WellFormed(log[i].run)
    ensures Drafted(HistoryOf(log[..i + 1]), log[i].run.revision, log[i].run.generated.value.tasks)
  {
    hide HistoryOf;
    assert Permitted(env, HistoryOf(log[..i]), log[i]);
    SavedIsLatest(log, i);
  }

  /** A later record of the same revision. */
  ghost predicate SavesAgain(log: seq<Event>, i: nat, k: nat)
    requires i < |log| && k < |log| && log[i].Saved?
  {
    i < k && log[k].Saved? && log[k].run.revision == log[i].run.revision
  }

  /**
   * Between a published record and a later moment, all records of its revision carry the same task drafts
   * exactly if no card edit that changes them was saved.
   */
  lemma DraftsStayIffNoEditSaved(env: Env, log: seq<Event>, i: nat, j: nat)
    requires i < j <= |log| && LogOk(env, log) && log[i].Saved? && log[i].run.github.Some?
    ensures WellFormed(log[i].run)
    ensures (forall k :: i < k < j && SavesAgain(log, i, k) ==>
               log[k].run.generated.Some? && log[k].run.generated.value.tasks == log[i].run.generated.value.tasks)
       <==> (forall k :: i < k < j ==> !SavesEdit(log, k, log[i].run.revision))
  {
    hide HistoryOf, Drafted, SavesEdit, LogOk;
    SavedIsDrafted(env, log, i);
    var v, drafts := log[i].run.revision, log[i].run.generated.value.tasks;
    if forall k :: i < k < j ==> !SavesEdit(log, k, v) {
      forall k | i < k < j && SavesAgain(log, i, k)
        ensures log[k].run.generated.Some? && log[k].run.generated.value.tasks == drafts
      {
        DraftsStay(env, log, i + 1, k, v, drafts);
        UneditedSave(env, log, k, v, drafts);
      }
    } else {
      var k := FirstEdit(env, log, i + 1, j, v);
      DraftsStay(env, log, i + 1, k, v, drafts);
      EditedSave(log, k, v, drafts);
    }
  }

  lemma UneditedSave(env: Env, log: seq<Event>, k: nat, v: nat, drafts: seq<TaskDraft>)
    requires k < |log| && LogOk(env, log) && log[k].Saved? && log[k].run.revision == v
    requires Drafted(HistoryOf(log[..k]), v, drafts) && !SavesEdit(log, k, v)
    ensures log[k].run.generated.Some? && log[k].run.generated.value.tasks == drafts
  {
    assert Permitted(env, HistoryOf(log[..k]), log[k]);
  }

  lemma EditedSave(log: seq<Event>, k: nat, v: nat, drafts: seq<TaskDraft>)
    requires k < |log| && Drafted(HistoryOf(log[..k]), v, drafts) && SavesEdit(log, k, v)
    ensures log[k].Saved? && log[k].run.revision == v
    ensures log[k].run.generated.Some? && log[k].run.generated.value.tasks != drafts
  {
  }

  lemma {:induction false} FirstEdit(env: Env, log: seq<Event>, i: nat, j: nat, v: nat) returns (k: nat)
    requires i <= j <= |log| && exists n :: i <= n < j && SavesEdit(log, n, v)
    ensures i <= k < j && SavesEdit(log, k, v) && forall n :: i <= n < k ==> !SavesEdit(log, n, v)
    decreases j - i
  {
    hide SavesEdit;
    k := i;
    if !SavesEdit(log, i, v) {
      k := FirstEdit(env, log, i + 1, j, v);
    }
  }

  lemma {:induction false} EditIsLogged(log: seq<Event>, j: nat) returns (i: nat)
    requires j <= |log| && HistoryOf(log[..j]).edit.Some?
    ensures i < j && (forall k :: i < k < j ==> !log[k].Begin?)
    ensures log[i] == TaskEdited(HistoryOf(log[..j]).edit.value.0, HistoryOf(log[..j]).edit.value.1)
  {
    assert j > 0;
    HistoryStep(log, j - 1);
    if log[j - 1].TaskEdited? {
      i := j - 1;
    } else {
      i := EditIsLogged(log, j - 1);
    }
  }

  /** A task's own record was changed at `i`, and no new delivery began between `i` and `k`. */
  ghost predicate EditedWithin(log: seq<Event>, i: nat, k: nat, v: nat)
    requires i < k <= |log|
  {
    log[i].TaskEdited? && log[i].revision == v && forall n :: i < n < k ==> !log[n].Begin?
  }

  /** An edit is written only after the task's own record was changed in the same delivery. */
  lemma SavedEditWasMade(log: seq<Event>, k: nat, v: nat)
    requires k < |log| && SavesEdit(log, k, v)
    ensures exists i :: 0 <= i < k && EditedWithin(log, i, k, v)
  {
    var i := EditIsLogged(log, k);
    assert EditedWithin(log, i, k, v);
  }

  // ---- Task creation ----

  lemma StepKeepsAsked(env: Env, h: History, e: Event, v: nat, p: PendingTask)
    requires Coherent(h) && Permitted(env, h, e)
    requires Asks(h, v, p) && e != TaskRefused(v, p.index)
    ensures Asks(After(h, e), v, p)
  {
    hide Coherent, Permitted;
    if e.TaskCreate? && e.revision == v && e.pending.index == p.index {
      AskedAgain(env, h, v, p, e.pending);
    }
  }

  ghost predicate Asks(h: History, v: nat, p: PendingTask) {
    (v, p.index) in h.asked && h.asked[(v, p.index)] == p
  }

  lemma AskedStaysOnce(env: Env, log: seq<Event>, j: nat, v: nat, p: PendingTask)
    requires j < |log| && LogOk(env, log) && Asks(HistoryOf(log[..j]), v, p) && log[j] != TaskRefused(v, p.index)
    ensures Asks(HistoryOf(log[..j + 1]), v, p)
  {
    hide HistoryOf, After, Permitted, Coherent, LogOk;
    StepInLog(env, log, j);
    StepKeepsAsked(env, HistoryOf(log[..j]), log[j], v, p);
    HistoryStep(log, j);
  }

  lemma {:induction false} AskedStays(env: Env, log: seq<Event>, i: nat, j: nat, v: nat, p: PendingTask)
    requires i <= j <= |log| && LogOk(env, log) && Asks(HistoryOf(log[..i]), v, p)
    requires forall k :: i <= k < j ==> log[k] != TaskRefused(v, p.index)
    ensures Asks(HistoryOf(log[..j]), v, p)
    decreases j
  {
    hide *;
    if i < j {
      AskedStays(env, log, i, j - 1, v, p);
      AskedStaysOnce(env, log, j - 1, v, p);
    }
  }

  lemma AskedAgain(env: Env, h: History, v: nat, p: PendingTask, q: PendingTask)
    requires Coherent(h) && Permitted(env, h, TaskCreate(v, q)) && q.index == p.index
    requires Asks(h, v, p)
    ensures q == p
  {
    assert Accounted(h, h.latest[v]);
  }

  /**
   * Over any interleaving of deliveries and crashes, however configuration changes meanwhile: a task creation
   * that is requested again for the same revision and draft carries the same key and the same input, unless it
   * was refused in between.
   */
  lemma OneRequestPerTask(env: Env, log: seq<Event>, i: nat, j: nat)
    requires i < j < |log| && LogOk(env, log) && log[i].TaskCreate? && log[j].TaskCreate?
    requires log[i].revision == log[j].revision && log[i].pending.index == log[j].pending.index
    requires forall k :: i < k < j ==> log[k] != TaskRefused(log[i].revision, log[i].pending.index)
    ensures log[i] == log[j]
  {
    hide HistoryOf, Coherent, LogOk;
    var v, p := log[i].revision, log[i].pending;
    HistoryStep(log, i);
    AskedStays(env, log, i + 1, j, v, p);
    StepInLog(env, log, j);
    AskedAgain(env, HistoryOf(log[..j]), v, p, log[j].pending);
  }

  // ---- Redo ----

  lemma {:induction false} AcknowledgedIsLogged(log: seq<Event>, e: Event)
    requires e in HistoryOf(log).acknowledged
    ensures e in log
  {
    if log != [] {
      if e in HistoryOf(log[..|log| - 1]).acknowledged {
        AcknowledgedIsLogged(log[..|log| - 1], e);
      }
    }
  }

  /**
   * A record of a higher revision is written only after the clean-up of the revision below it was
   * acknowledged in full: GitHub records, every task in scope, and the shared thread.
   */
  lemma RevisionRisesOnlyAfterCleanup(env: Env, log: seq<Event>, i: nat)
    requires i < |log| && LogOk(env, log) && log[i].Saved?
    requires log[i].run.revision > HistoryOf(log[..i]).current
    ensures var h := HistoryOf(log[..i]);
      && h.Has(h.current) && log[i].run.revision == h.current + 1 && Pristine(log[i].run)
      && var d := Durable(h);
         && d.github.Some? && GitHubDeleted(d.revision, d.github.value) in log[..i]
         && (d.tasks.Some? ==> d.tasks.value.pending.None?)
         && (d.tasks.Some? ==> forall k :: 0 <= k < |d.tasks.value.registered| ==>
               (InScope(d.tasks.value.registered[k]) ==>
                 TaskDeleted(d.revision, d.tasks.value.registered[k].taskId) in log[..i]))
         && (d.slack.parentTs.Some? ==> Retracted(d.revision, d.slack.parentTs.value) in log[..i])
  {
    StepInLog(env, log, i);
    var h := HistoryOf(log[..i]);
    forall e | e in h.acknowledged ensures e in log[..i] {
      AcknowledgedIsLogged(log[..i], e);
    }
  }

  /** A clean-up that a saved record carries is never attempted again for that revision. */
  lemma CheckpointedCleanupIsNotRepeated(env: Env, log: seq<Event>, i: nat, j: nat)
    requires i < j < |log| && LogOk(env, log) && log[i].Saved? && log[i].run.redo.Some?
    ensures log[i].run.redo.value.githubDeleted ==>
      !(log[j].GitHubDelete? && log[j].revision == log[i].run.revision)
    ensures log[j].TaskDelete? && log[j].revision == log[i].run.revision ==>
      log[j].taskId !in log[i].run.redo.value.deletedTaskIds
    ensures log[i].run.redo.value.retracted ==>
      !(log[j].Retract? && log[j].revision == log[i].run.revision)
  {
    SavedEvolves(env, log, i, j);
    assert Permitted(env, HistoryOf(log[..j]), log[j]);
  }

  // ---- Recovery ----

  ghost predicate RearmedBy(h: History, e: Event) {
    e.Saved? && h.current in h.latest && e.run.Action() != Durable(h).Action()
  }

  /** The save at `k` puts the run under another arm. */
  ghost predicate Rearms(log: seq<Event>, k: nat)
    requires k < |log|
  {
    RearmedBy(HistoryOf(log[..k]), log[k])
  }

  lemma StepKeepsCounts(h: History, e: Event)
    requires !RearmedBy(h, e)
    ensures h.updates <= After(h, e).updates && h.fallbacks <= After(h, e).fallbacks
  {
  }

  lemma {:induction false} EffectsSinceArm(log: seq<Event>, i: nat, j: nat)
    requires i <= j <= |log|
    requires forall k :: i <= k < j ==> !Rearms(log, k)
    ensures HistoryOf(log[..i]).updates <= HistoryOf(log[..j]).updates
    ensures HistoryOf(log[..i]).fallbacks <= HistoryOf(log[..j]).fallbacks
    decreases j
  {
    if i < j {
      hide HistoryOf, After, RearmedBy;
      EffectsSinceArm(log, i, j - 1);
      assert !Rearms(log, j - 1);
      StepKeepsCounts(HistoryOf(log[..j - 1]), log[j - 1]);
      HistoryStep(log, j - 1);
    }
  }

  lemma NoEffectWithoutRearm(env: Env, log: seq<Event>, i: nat, j: nat)
    requires i < j < |log| && LogOk(env, log)
    requires forall k :: i < k < j ==> !Rearms(log, k)
    ensures log[i].StatusUpdate? ==> !log[j].StatusUpdate?
    ensures log[i].Fallback? ==> !log[j].Fallback?
  {
    HistoryStep(log, i);
    EffectsSinceArm(log, i + 1, j);
    assert Permitted(env, HistoryOf(log[..j]), log[j]);
  }

  /** Between two arms, the recovery calls each of its two Slack effects at most once. */
  lemma RecoveryEffectsAtMostOnce(env: Env, log: seq<Event>, i: nat, j: nat)
    requires i < j < |log| && LogOk(env, log)
    requires (log[i].StatusUpdate? && log[j].StatusUpdate?) || (log[i].Fallback? && log[j].Fallback?)
    ensures exists k :: i < k < j && Rearms(log, k)
  {
    if forall k :: i < k < j ==> !Rearms(log, k) {
      NoEffectWithoutRearm(env, log, i, j);
    }
  }

  /** A failed status update at `i`, and no new delivery begun between `i` and `j`. */
  ghost predicate FailedWithin(log: seq<Event>, i: nat, j: nat)
    requires i < j <= |log|
  {
    log[i].StatusUpdateFailed? && forall k :: i < k < j ==> !log[k].Begin?
  }

  lemma FailureIsSetByUpdate(h: History, e: Event)
    requires After(h, e).updateFailed
    ensures e.StatusUpdateFailed? || (h.updateFailed && !e.Begin?)
  {
  }

  lemma {:induction false} FailedUpdateIsLogged(log: seq<Event>, j: nat) returns (i: nat)
    requires j <= |log| && HistoryOf(log[..j]).updateFailed
    ensures i < j && FailedWithin(log, i, j)
  {
    assert j > 0;
    HistoryStep(log, j - 1);
    FailureIsSetByUpdate(HistoryOf(log[..j - 1]), log[j - 1]);
    if log[j - 1].StatusUpdateFailed? {
      i := j - 1;
    } else {
      i := FailedUpdateIsLogged(log, j - 1);
    }
  }

  /** The fallback runs only after a failed status update of the same delivery. */
  lemma FallbackFollowsFailedUpdate(env: Env, log: seq<Event>, j: nat)
    requires j < |log| && LogOk(env, log) && log[j].Fallback?
    ensures exists i :: 0 <= i < j && FailedWithin(log, i, j)
  {
    assert Permitted(env, HistoryOf(log[..j]), log[j]);
    var i := FailedUpdateIsLogged(log, j);
  }
}
