/** The receipt that a completed run delivers to its system of record, and the identity it goes under. */
module MinutesReceipts {
  import opened Options
  import opened Decimal
  import opened MinutesRun
  import opened MinutesLog
  import opened MinutesContext
  import opened MinutesPipeline

  /** What is sent; `key` is the hash of project code and external run id. */
  datatype Receipt = Receipt(project: string, externalId: string, key: string, finishedAt: string,
                             minutesUrl: string, source: Readback, caseId: Option<string>)

  type KeyOf = (string, string) -> string

  /** The run has ended well in every part, and its final Slack message was read back. */
  predicate Healthy(r: Run) {
    && r.destination.Some? && r.status == Completed && r.failure.None? && r.projectionFailure.None?
    && r.statusProjection == Some(ShownCompleted) && r.readback.Some? && r.github.Some?
    && (r.tasks.Some? ==> r.tasks.value.pending.None? && r.tasks.value.failure.None?)
  }

  function BuildReceipt(runId: string, r: Run, keyOf: KeyOf): (receipt: Option<Receipt>)
    ensures receipt.Some? ==> Healthy(r)
  {
    if !Healthy(r) then None else
      var project := r.destination.value.contextProject;
      var id := ExternalId(runId, r.revision, r.receiptRevision);
      Some(Receipt(project, id, keyOf(project, id), r.readback.value.confirmedAt,
                   r.github.value.minutesUrl, r.readback.value, r.outcomeCaseId))
  }

  // ---- Identity ----

  lemma NumeralHasNoColon(n: nat)
    ensures ':' !in Print(n)
  {
  }

  function Tail(receiptRevision: nat): string {
    if receiptRevision > 0 then ":receipt-revision:" + Print(receiptRevision) else ""
  }

  lemma ExternalIdForm(runId: string, v: nat, k: nat)
    ensures ExternalId(runId, v, k) == ("mana:meeting-minutes:" + runId + ":revision:") + (Print(v) + Tail(k))
  {
  }

  lemma TailStartsWithColon(k: nat)
    requires k > 0
    ensures Tail(k) == [':'] + ("receipt-revision:" + Print(k))
  {
  }

  lemma ColonMarksTail(v: nat, k: nat)
    ensures ':' in Print(v) + Tail(k) <==> k > 0
  {
    NumeralHasNoColon(v);
    if k > 0 {
      TailStartsWithColon(k);
      assert (Print(v) + Tail(k))[|Print(v)|] == ':';
    }
  }

  lemma NumberedTail(v: nat, k: nat, v': nat, k': nat)
    requires Print(v) + Tail(k) == Print(v') + Tail(k')
    ensures v == v' && k == k'
  {
    ColonMarksTail(v, k);
    ColonMarksTail(v', k');
    if k == 0 {
      hide Print;
      assert Print(v) + Tail(k) == Print(v) && Print(v') + Tail(k') == Print(v');
      PrintInjective(v, v');
    } else {
      hide Print, Tail;
      TailStartsWithColon(k);
      TailStartsWithColon(k');
      SuffixedNumber(v, k, v', k');
    }
  }

  lemma SuffixedNumber(v: nat, k: nat, v': nat, k': nat)
    requires Print(v) + ([':'] + ("receipt-revision:" + Print(k)))
          == Print(v') + ([':'] + ("receipt-revision:" + Print(k')))
    ensures v == v' && k == k'
  {
    NumeralHasNoColon(v);
    NumeralHasNoColon(v');
    hide Print;
    var rest, rest' := "receipt-revision:" + Print(k), "receipt-revision:" + Print(k');
    assert Print(v) + ([':'] + rest) == Print(v) + [':'] + rest;
    assert Print(v') + ([':'] + rest') == Print(v') + [':'] + rest';
    SplitsOnce(Print(v), rest, Print(v'), rest', ':');
    PrintInjective(v, v');
    SameSuffix(k, k');
  }

  lemma SameSuffix(k: nat, k': nat)
    requires "receipt-revision:" + Print(k) == "receipt-revision:" + Print(k')
    ensures k == k'
  {
    hide Print;
    assert Print(k) == ("receipt-revision:" + Print(k))[17..];
    assert Print(k') == ("receipt-revision:" + Print(k'))[17..];
    PrintInjective(k, k');
  }

  /** Receipts of one run share an identity exactly when both of their revisions agree. */
  lemma ExternalIdInjective(runId: string, v: nat, k: nat, v': nat, k': nat)
    ensures ExternalId(runId, v, k) == ExternalId(runId, v', k') <==> v == v' && k == k'
  {
    ExternalIdForm(runId, v, k);
    ExternalIdForm(runId, v', k');
    var head := "mana:meeting-minutes:" + runId + ":revision:";
    if ExternalId(runId, v, k) == ExternalId(runId, v', k') {
      assert Print(v) + Tail(k) == (head + (Print(v) + Tail(k)))[|head|..];
      assert Print(v') + Tail(k') == (head + (Print(v') + Tail(k')))[|head|..];
      NumberedTail(v, k, v', k');
    }
  }

  // ---- One identity, one case? ----

  lemma ReceiptPermitted(env: Env, log: seq<Event>, i: nat)
    requires i < |log| && LogOk(env, log) && log[i].ReceiptSent?
    ensures var h, v := HistoryOf(log[..i]), log[i].revision;
      && h.Has(v) && h.latest[v].github.Some? && h.latest[v].receiptRevision == log[i].receiptRevision
      && h.latest[v].outcomeCaseId == log[i].caseId
      && log[i].externalId == ExternalId(env.runId, v, log[i].receiptRevision)
  {
    assert Permitted(env, HistoryOf(log[..i]), log[i]);
  }

  /**
   * Two deliveries under one identity are for the same revisions, and name the same case unless the first
   * named none.
   */
  lemma OneIdentityOneDeclaredCase(env: Env, log: seq<Event>, i: nat, j: nat)
    requires i < j < |log| && LogOk(env, log) && log[i].ReceiptSent? && log[j].ReceiptSent?
    requires log[i].externalId == log[j].externalId
    ensures log[i].revision == log[j].revision && log[i].receiptRevision == log[j].receiptRevision
    ensures log[i].caseId.Some? ==> log[j].caseId == log[i].caseId
  {
    hide HistoryOf, LogOk, WellFormed;
    ReceiptPermitted(env, log, i);
    ReceiptPermitted(env, log, j);
    ExternalIdInjective(env.runId, log[i].revision, log[i].receiptRevision, log[j].revision, log[j].receiptRevision);
    RevisionEvolves(env, log, i, j, log[i].revision);
  }

  /** A save that gives the given revision's record a case under the given receipt revision. */
  ghost predicate DeclaresCase(e: Event, v: nat, k: nat) {
    e.Saved? && e.run.revision == v && e.run.receiptRevision == k && e.run.outcomeCaseId.Some?
  }

  lemma StepKeepsCaseless(h: History, e: Event, v: nat, k: nat)
    requires v in h.latest && !DeclaresCase(e, v, k)
    requires h.latest[v].receiptRevision == k ==> h.latest[v].outcomeCaseId.None?
    ensures v in After(h, e).latest
    ensures After(h, e).latest[v].receiptRevision == k ==> After(h, e).latest[v].outcomeCaseId.None?
  {
  }

  lemma {:induction false} StaysCaseless(log: seq<Event>, i: nat, j: nat, v: nat, k: nat)
    requires i <= j <= |log| && v in HistoryOf(log[..i]).latest
    requires HistoryOf(log[..i]).latest[v].receiptRevision == k ==> HistoryOf(log[..i]).latest[v].outcomeCaseId.None?
    requires forall n :: i <= n < j ==> !DeclaresCase(log[n], v, k)
    ensures v in HistoryOf(log[..j]).latest
    ensures HistoryOf(log[..j]).latest[v].receiptRevision == k ==> HistoryOf(log[..j]).latest[v].outcomeCaseId.None?
    decreases j
  {
    if i < j {
      hide HistoryOf, DeclaresCase;
      StaysCaseless(log, i, j - 1, v, k);
      StepKeepsCaseless(HistoryOf(log[..j - 1]), log[j - 1], v, k);
      HistoryStep(log, j - 1);
    }
  }

  /**
   * Exactly when two deliveries under one identity disagree about the case: the first named none, and a case
   * was declared on the record in between.
   */
  lemma CasesDifferIffDeclaredBetween(env: Env, log: seq<Event>, i: nat, j: nat)
    requires i < j < |log| && LogOk(env, log) && log[i].ReceiptSent? && log[j].ReceiptSent?
    requires log[i].externalId == log[j].externalId
    ensures log[i].caseId != log[j].caseId <==>
      log[i].caseId.None? && exists n :: i <= n < j && DeclaresCase(log[n], log[i].revision, log[i].receiptRevision)
  {
    hide HistoryOf, LogOk, WellFormed;
    var v, k := log[i].revision, log[i].receiptRevision;
    OneIdentityOneDeclaredCase(env, log, i, j);
    ReceiptPermitted(env, log, i);
    ReceiptPermitted(env, log, j);
    if forall n :: i <= n < j ==> !DeclaresCase(log[n], v, k) {
      if log[i].caseId.None? {
        StaysCaseless(log, i, j, v, k);
      }
    } else {
      var n :| i <= n < j && DeclaresCase(log[n], v, k);
      RevisionEvolves(env, log, i, n + 1, v);
      SavedIsLatest(log, n);
      DeclarationIsKept(env, log, n, j);
    }
  }

  /** A declared case is what a later delivery under the same revisions names. */
  lemma DeclarationIsKept(env: Env, log: seq<Event>, n: nat, j: nat)
    requires n < j < |log| && LogOk(env, log) && log[n].Saved? && log[n].run.outcomeCaseId.Some?
    requires log[j].ReceiptSent? && log[j].revision == log[n].run.revision
    requires log[j].receiptRevision == log[n].run.receiptRevision
    requires log[n].run.github.Some?
    ensures log[j].caseId == log[n].run.outcomeCaseId
  {
    hide HistoryOf, LogOk, WellFormed;
    SavedEvolves(env, log, n, j);
    ReceiptPermitted(env, log, j);
  }

  /**
   * The source lets this happen: a case may be declared on a completed run while its receipt is pending, and
   * the receipt then goes out under the identity it already had.
   */
  lemma DeclaringKeepsIdentity(runId: string, r: Run, keyOf: KeyOf, caseId: string)
    requires BuildReceipt(runId, r, keyOf).Some? && r.outcomeCaseId.None?
    ensures var before, after := BuildReceipt(runId, r, keyOf), BuildReceipt(runId, WithCase(r, Some(caseId)), keyOf);
      && after.Some? && after.value.externalId == before.value.externalId && after.value.key == before.value.key
      && after.value.caseId == Some(caseId) && before.value.caseId == None
  {
  }

  /** A delivered receipt stays on every later record of its revision, with the case that the run declares. */
  lemma DeliveredReceiptIsFixed(env: Env, log: seq<Event>, i: nat, j: nat)
    requires i < j < |log| && LogOk(env, log) && log[i].Saved? && log[j].Saved?
    requires log[j].run.revision == log[i].run.revision && ReceiptDelivered(log[i].run)
    ensures log[j].run.receipt == log[i].run.receipt
    ensures log[j].run.receipt.value.caseId == log[j].run.outcomeCaseId
    ensures log[j].run.outcomeCaseId == log[i].run.outcomeCaseId
  {
    hide HistoryOf, LogOk;
    PublicationIsFixed(env, log, i, j);
  }
}
