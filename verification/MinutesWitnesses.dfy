/** Permitted histories that show which guarantees of a run do not go further than they are stated. */
module MinutesWitnesses {
  import opened Options
  import opened MinutesRun
  import opened MinutesLog
  import opened MinutesContext
  import opened MinutesPipeline
  import opened MinutesReceipts

  const DRAFT := TaskDraft("Call back", None, None)

  const TASK := Task(0, "Call back", "task-1", Unset, Some(["p"]), None, None)

  const DESTINATION := Destination(
    "d", "p", "Project", "C1", GitHubTarget("o", "r", None, None), Organization("o", "Org"), ["p"], "p", "b")

  /** A completed run with one drafted task, registered; nothing declared, no receipt yet. */
  const COMPLETED_RUN := NEW_RUN.(
    status := Completed, destination := Some(DESTINATION), transcriptSha := Some("sha"),
    context := Some(Context("c", "k", Resolved, None)),
    generated := Some(Minutes("Title", "Overview", "Body", "", [DRAFT])),
    github := Some(GitHubRecords("t", "m", "u")), tasks := Some(Tasks([TASK], None, None)),
    statusProjection := Some(ShownCompleted), readback := Some(Readback("C0", "1", "sha256:0", "now")))

  lemma CompletedMaySave(r: Run)
    requires r == COMPLETED_RUN.(receipt := r.receipt) && (r.receipt.Some? ==> r.receipt.value.status == Pending)
    ensures MaySave(START, r)
  {
    assert TasksFit(r.tasks.value, 1);
    assert START.latest[0] == NEW_RUN && WellFormed(r) && WellFormed(NEW_RUN) && Evolves(NEW_RUN, r);
  }

  lemma FirstSave(env: Env, r: Run)
    requires MaySave(START, r)
    ensures LogOk(env, [Saved(r)]) && HistoryOf([Saved(r)]) == After(START, Saved(r))
  {
    assert HistoryOf([]) == START;
    AppendOk(env, [], Saved(r));
    assert [] + [Saved(r)] == [Saved(r)];
  }

  /** The drafts of a published revision can differ from one record to the next: a card was edited in between. */
  lemma DraftsCanChange(env: Env) returns (log: seq<Event>)
    ensures LogOk(env, log) && |log| == 3 && log[0].Saved? && SavesAgain(log, 0, 2)
    ensures log[0].run.github.Some? && log[2].run.generated.Some? && SavesEdit(log, 2, 0)
    ensures log[2].run.generated.value.tasks != log[0].run.generated.value.tasks
  {
    var first := COMPLETED_RUN;
    var e := Edit(0, "Call back today", None, None);
    var drafts := Edited([DRAFT], e);
    assert drafts == [TaskDraft("Call back today", None, None)];
    assert |"Call back today"| != |"Call back"|;
    var second := first.(generated := Some(first.generated.value.(tasks := drafts)));
    CompletedMaySave(first);
    FirstSave(env, first);
    AppendOk(env, [Saved(first)], TaskEdited(0, e));
    var two := [Saved(first)] + [TaskEdited(0, e)];
    var h := HistoryOf(two);
    assert h.latest[0] == first && h.edit == Some((0, e));
    EditMaySave(h, first, second, e);
    AppendOk(env, two, Saved(second));
    log := two + [Saved(second)];
    assert log[..2] == two;
  }

  lemma EditMaySave(h: History, first: Run, second: Run, e: Edit)
    requires MaySave(h, first) && first == COMPLETED_RUN && h.current == 0
    requires 0 in h.latest && h.latest[0] == first && h.edit == Some((0, e)) && h.asked == map[]
    requires second == first.(generated := Some(first.generated.value.(tasks := Edited([DRAFT], e))))
    ensures MaySave(h, second)
  {
    assert TasksFit(second.tasks.value, 1);
    assert WellFormed(second) && Evolves(first, second);
  }

  /** The record of revision 0 is this one, and its receipt may go out. */
  ghost predicate Stands(env: Env, log: seq<Event>, r: Run) {
    && LogOk(env, log) && HistoryOf(log).current == 0 && HistoryOf(log).Has(0) && HistoryOf(log).latest[0] == r
    && r.github.Some? && MaySave(HistoryOf(log), r)
  }

  lemma SendFrom(env: Env, log: seq<Event>, r: Run)
    requires Stands(env, log, r) && r.receiptRevision == 0
    ensures Stands(env, log + [ReceiptSent(0, 0, ExternalId(env.runId, 0, 0), r.outcomeCaseId)], r)
  {
    hide MaySave;
    AppendOk(env, log, ReceiptSent(0, 0, ExternalId(env.runId, 0, 0), r.outcomeCaseId));
  }

  lemma DeclareFrom(env: Env, log: seq<Event>, r: Run)
    requires Stands(env, log, r) && r == COMPLETED_RUN.(receipt := r.receipt)
    requires r.receipt.Some? && r.receipt.value.status == Pending
    ensures Stands(env, log + [Saved(WithCase(r, Some("case")))], WithCase(r, Some("case")))
  {
    var second := WithCase(r, Some("case"));
    CaseMaySave(HistoryOf(log), r, second);
    hide MaySave;
    AppendOk(env, log, Saved(second));
    SavedMaySave(HistoryOf(log), second);
  }

  lemma SavedMaySave(h: History, r: Run)
    requires MaySave(h, r) && h.current in h.latest
    ensures MaySave(After(h, Saved(r)), r) && After(h, Saved(r)).Has(r.revision)
  {
    EvolvesReflexive(r);
  }

  /** Two receipts of one run can go out under one identity for different cases: one was declared in between. */
  lemma OneIdentityCanNameTwoCases(env: Env, keyOf: KeyOf) returns (log: seq<Event>)
    ensures LogOk(env, log) && |log| == 4 && log[1].ReceiptSent? && log[3].ReceiptSent?
    ensures log[1].externalId == log[3].externalId && log[1].caseId == None && log[3].caseId == Some("case")
    ensures log[0].Saved? && BuildReceipt(env.runId, log[0].run, keyOf).Some?
    ensures log[2] == Saved(WithCase(log[0].run, Some("case")))
  {
    hide MaySave, LogOk, HistoryOf;
    var id := ExternalId(env.runId, 0, 0);
    var first := COMPLETED_RUN.(receipt := Some(RunReceipt(None, keyOf("p", id), Pending, None, None)));
    var second := WithCase(first, Some("case"));
    CompletedMaySave(first);
    FirstSave(env, first);
    SavedMaySave(START, first);
    var one := [Saved(first)];
    SendFrom(env, one, first);
    var two := one + [ReceiptSent(0, 0, id, None)];
    DeclareFrom(env, two, first);
    var three := two + [Saved(second)];
    SendFrom(env, three, second);
    log := three + [ReceiptSent(0, 0, id, Some("case"))];
  }

  lemma CaseMaySave(h: History, first: Run, second: Run)
    requires MaySave(h, first) && h.current == 0 && 0 in h.latest && h.latest[0] == first
    requires first == COMPLETED_RUN.(receipt := first.receipt)
    requires first.receipt.Some? && first.receipt.value.status == Pending
    requires second == first.(outcomeCaseId := Some("case"))
    ensures MaySave(h, second)
  {
    assert WellFormed(second) && Evolves(first, second);
  }
}
