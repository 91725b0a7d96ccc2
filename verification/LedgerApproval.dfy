/** Candidates waiting for approval, and `processContractLedgerApproval`, which enters them into the sheet. */
module LedgerApproval {
  import opened Options
  import opened LedgerPlan
  import opened LedgerUpdates
  import opened LedgerSheet

  const HEADER := "Envelope ID"

  datatype Mode = Audit | ExistingOnly | Full

  datatype Decision = Approve | Reject

  datatype Status = Pending | Applying | Approved | Rejected

  datatype Record = Record(candidate: Candidate, status: Status, notified: bool,
                           decidedBy: Option<string>, decidedAt: Option<string>)

  datatype Approval = Approval(envelopeId: string, decision: Decision, decidedBy: string, decidedAt: string)

  datatype Result = Applied | Replayed | Declined | Failed(message: string) | Crashed

  datatype SyncStatus = SyncSucceeded | SyncPartial | SyncFailed

  datatype SyncReceipt = SyncReceipt(
    fetched: nat, updated: nat, candidates: nat, excluded: nat, failed: nat, status: SyncStatus)

  /** What is stored of one sync run. */
  datatype SyncRun = Running(claimedAt: int) | Finished(receipt: SyncReceipt) | Broken(receipt: SyncReceipt)

  datatype SyncClaim = Claimed | Completed | InProgress

  datatype SyncResult = Carried(receipt: SyncReceipt) | AlreadyDone | Refused | Threw | SyncCrashed

  /** Five minutes, in milliseconds. */
  const CLAIM_MS := 5 * 60_000

  /** How a call to the sheet, to storage or to Slack comes back. */
  datatype Call = Succeeded | CallFailed | CallCrashed

  class Ledger {
    var candidates: map<string, Record>
    var sheet: seq<Row>
    var runs: map<string, SyncRun>
    var lastReceipt: Option<SyncReceipt>
    /** The rows entered by approvals so far. */
    ghost var entries: seq<Entry>

    ghost predicate CandidatesOk()
      reads this`candidates
    {
      forall id :: id in candidates ==>
        |candidates[id].candidate.proposedRow| == COLUMNS && HasId(candidates[id].candidate.proposedRow, id)
    }

    ghost predicate ApprovedArePresent()
      reads this`candidates, this`sheet
    {
      forall id :: id in candidates && candidates[id].status == Approved ==> Present(Read(sheet), id)
    }

    ghost predicate Valid()
      reads this
    {
      sheet != [] && CandidatesOk() && ApprovedArePresent() && EntriesOk(sheet, entries)
    }

    constructor (sheet: seq<Row>)
      requires sheet != []
      ensures Valid() && this.sheet == sheet && entries == [] && candidates == map[] && runs == map[]
    {
      this.sheet := sheet;
      candidates, runs, lastReceipt := map[], map[], None;
      entries := [];
    }

    // ---- Candidates ----

    /** `saveCandidate`: the first one saved for an envelope stays. */
    method SaveCandidate(candidate: Candidate) returns (created: bool, record: Record)
      requires Valid() && |candidate.proposedRow| == COLUMNS && HasId(candidate.proposedRow, candidate.envelope.id)
      modifies this`candidates
      ensures Valid()
      ensures created <==> candidate.envelope.id !in old(candidates)
      ensures record ==
        if created then Record(candidate, Pending, false, None, None) else old(candidates)[candidate.envelope.id]
      ensures candidates == old(candidates)[candidate.envelope.id := record]
    {
      var id := candidate.envelope.id;
      if id in candidates { return false, candidates[id]; }
      record := Record(candidate, Pending, false, None, None);
      candidates := candidates[id := record];
      created := true;
    }

    method MarkNotified(id: string) returns (ok: bool)
      requires Valid()
      modifies this`candidates
      ensures Valid() && (ok <==> id in old(candidates))
      ensures candidates ==
        if ok then old(candidates)[id := old(candidates)[id].(notified := true)] else old(candidates)
    {
      ok := id in candidates;
      if ok { candidates := candidates[id := candidates[id].(notified := true)]; }
    }

    /** `claimDecision`: a decided candidate stays as it is; an interrupted approval may be claimed again. */
    method ClaimDecision(a: Approval) returns (claim: Option<(bool, Record)>)
      requires Valid()
      modifies this`candidates
      ensures Valid()
      ensures claim.None? <==> a.envelopeId !in old(candidates)
      ensures claim.None? ==> candidates == old(candidates)
      ensures claim.Some? ==>
        && var before := old(candidates)[a.envelopeId];
           candidates == old(candidates)[a.envelopeId := claim.value.1]
           && (if before.status == Approved || before.status == Rejected then claim.value == (false, before)
               else claim.value == (a.decision == Approve, before.(
                      status := if a.decision == Approve then Applying else Rejected,
                      decidedBy := Some(a.decidedBy), decidedAt := Some(a.decidedAt))))
    {
      if a.envelopeId !in candidates { return None; }
      var current := candidates[a.envelopeId];
      if current.status == Approved || current.status == Rejected { return Some((false, current)); }
      var next := current.(status := if a.decision == Approve then Applying else Rejected,
                           decidedBy := Some(a.decidedBy), decidedAt := Some(a.decidedAt));
      candidates := candidates[a.envelopeId := next];
      claim := Some((a.decision == Approve, next));
    }

    /** `completeApproval`. */
    method CompleteApproval(id: string)
      requires Valid() && id in candidates && Present(Read(sheet), id)
      modifies this`candidates
      ensures Valid() && candidates == old(candidates)[id := old(candidates)[id].(status := Approved)]
    {
      candidates := candidates[id := candidates[id].(status := Approved)];
    }

    // ---- Approval ----

    /** Enter the candidate's row behind the rows read; the write may be lost, or done and reported as failed. */
    method EnterRow(id: string, year: nat) returns (s: Call)
      requires Valid() && id in candidates && !Present(Read(sheet), id)
      modifies this`sheet, this`entries
      ensures Valid() && (Tidy(Read(old(sheet))) ==> Tidy(Read(sheet)))
      ensures (sheet == old(sheet) && entries == old(entries) && s != Succeeded)
           || Entered(old(sheet), old(entries), id, year)
    {
      hide Tidy;
      var ledger := Read(sheet);
      var next := NextNumber(ledger, year);
      var row := NumberedRow(candidates[id].candidate.proposedRow, year, next);
      var written: bool := *;
      if written {
        EnteringKeepsRead(sheet, row);
        ghost var entry := Entry(id, |sheet|, year, next, if |ledger| < |sheet| then Some(sheet[|ledger|]) else None);
        EntryAdded(sheet, entries, row, entry);
        if Tidy(ledger) { EnteringKeepsTidy(sheet, row, id, year); }
        forall other | other in candidates && candidates[other].status == Approved
          ensures Present(Read(PutRow(sheet, |ledger|, row)), other)
        {
          KeptIsPresent(sheet, PutRow(sheet, |ledger|, row), other);
        }
        entries := entries + [entry];
        sheet := PutRow(sheet, |ledger|, row);
      }
      s := *;
      if s == Succeeded && !written { s := CallFailed; }
    }

    /** One row for `id` was entered behind the rows read, under a number above all that were read. */
    ghost predicate Entered(before: seq<Row>, log: seq<Entry>, id: string, year: nat)
      reads this
      requires id in candidates && |candidates[id].candidate.proposedRow| == COLUMNS
    {
      var number := NextNumber(Read(before), year);
      && sheet == PutRow(before, |Read(before)|, NumberedRow(candidates[id].candidate.proposedRow, year, number))
      && |entries| == |log| + 1 && entries[..|log|] == log
      && entries[|log|].envelopeId == id && entries[|log|].rows == |before|
      && entries[|log|].year == year && entries[|log|].number == number
    }

    predicate SchemaOk(rows: seq<Row>) {
      rows != [] && Cell(rows[0], ID_COLUMN) == Some(HEADER)
    }

    /** `readLedger`. */
    method ReadLedger() returns (s: Call, rows: seq<Row>)
      ensures s == Succeeded ==> rows == Read(sheet) && SchemaOk(rows)
    {
      rows := Read(sheet);
      s := *;
      if s == Succeeded && !SchemaOk(rows) { s := CallFailed; }
    }

    /** Enter the row for `id` unless it is there, and read it back. */
    method EnsureRow(id: string, year: nat) returns (s: Call)
      requires Valid() && id in candidates
      modifies this`sheet, this`entries
      ensures Valid() && KeepsRead(old(sheet), sheet) && (Tidy(Read(old(sheet))) ==> Tidy(Read(sheet)))
      ensures s == Succeeded ==> Present(Read(sheet), id)
      ensures (sheet == old(sheet) && entries == old(entries))
           || (!Present(Read(old(sheet)), id) && Entered(old(sheet), old(entries), id, year))
    {
      hide Tidy;
      var ledger;
      s, ledger := ReadLedger();
      EnteringKeepsRead(sheet, NumberedRow(candidates[id].candidate.proposedRow, year, NextNumber(Read(sheet), year)));
      if s != Succeeded || Present(ledger, id) { return; }
      s := EnterRow(id, year);
      if s != Succeeded { return; }
      s, ledger := ReadLedger();
      if s == Succeeded && !Present(ledger, id) { s := CallFailed; }
    }

    /**
     * One delivery of a decision, any number of which may repeat or follow a crash. Only an approval enters a
     * row, and only if readers see none for the envelope; it is `Applied` only with the row there.
     */
    method Decide(a: Approval, mode: Mode, yearOf: string -> nat) returns (result: Result)
      requires Valid()
      modifies this`candidates, this`sheet, this`entries
      ensures Valid() && KeepsRead(old(sheet), sheet) && (Tidy(Read(old(sheet))) ==> Tidy(Read(sheet)))
      ensures a.envelopeId !in old(candidates) ==>
        candidates == old(candidates) && sheet == old(sheet) && result.Failed?
      ensures a.envelopeId in old(candidates) ==> a.envelopeId in candidates
      ensures forall id :: id in old(candidates) && id != a.envelopeId ==>
        id in candidates && candidates[id] == old(candidates)[id]
      ensures result == Applied ==>
        && a.decision == Approve && mode == Full
        && Present(Read(sheet), a.envelopeId) && candidates[a.envelopeId].status == Approved
      ensures result == Replayed ==>
        && old(candidates)[a.envelopeId].status == Approved
        && candidates == old(candidates) && sheet == old(sheet)
      ensures result == Declined <==> a.decision == Reject && a.envelopeId in old(candidates)
      ensures a.decision == Reject || mode != Full || Present(Read(old(sheet)), a.envelopeId) ==>
        sheet == old(sheet) && entries == old(entries)
      ensures (sheet == old(sheet) && entries == old(entries))
           || (a.envelopeId in candidates
               && Entered(old(sheet), old(entries), a.envelopeId, YearFor(candidates[a.envelopeId], a, yearOf)))
    {
      hide Tidy;
      var claim := ClaimDecision(a);
      EnteringKeepsRead(sheet, []);
      if claim.None? { return Failed("contract_candidate_missing"); }
      var (apply, record) := claim.value;
      if a.decision == Reject { return Declined; }
      if !apply && record.status == Approved { return Replayed; }
      if mode != Full { return Failed("contract_ledger_full_write_disabled"); }
      var s := EnsureRow(a.envelopeId, YearFor(record, a, yearOf));
      if s == CallFailed { return Failed("contract_ledger_append_failed"); }
      if s == CallCrashed { return Crashed; }
      var stored, answered: bool := *, *;
      if stored { CompleteApproval(a.envelopeId); }
      result := if stored && answered then Applied else Crashed;
    }

    function YearFor(record: Record, a: Approval, yearOf: string -> nat): nat {
      yearOf(Or(record.candidate.envelope.sentAt, Some(a.decidedAt)).value)
    }

    // ---- Syncing ----

    method WriteOne(update: Update)
      requires Valid()
      modifies this`sheet
      ensures Valid() && KeepsRead(old(sheet), sheet) && sheet == Write(old(sheet), update)
      ensures |sheet| == |old(sheet)|
    {
      WritingKeepsRead(sheet, update);
      EntriesKept(sheet, Write(sheet, update), entries);
      forall id | id in candidates && candidates[id].status == Approved
        ensures Present(Read(Write(sheet, update)), id)
      {
        KeptIsPresent(sheet, Write(sheet, update), id);
      }
      sheet := Write(sheet, update);
    }

    /** Write the plan's status updates, one after the other, and count those that are acknowledged. */
    method WriteUpdates(updates: seq<Update>) returns (s: Call, count: nat)
      requires Valid()
      modifies this`sheet
      ensures Valid() && KeepsRead(old(sheet), sheet) && |sheet| == |old(sheet)| && count <= |updates|
      ensures s == Succeeded ==> sheet == WriteAll(old(sheet), updates) && count == |updates|
    {
      hide Write, KeepsRead, EntriesOk;
      s, count := Succeeded, 0;
      assert updates[..0] == [];
      ReadIsKept(sheet);
      while count < |updates|
        invariant Valid() && KeepsRead(old(sheet), sheet) && |sheet| == |old(sheet)|
        invariant s == Succeeded && count <= |updates|
        invariant sheet == WriteAll(old(sheet), updates[..count])
      {
        assert updates[..count + 1][..count] == updates[..count];
        var written: bool := *;
        s := *;
        if written {
          ghost var before := sheet;
          WriteOne(updates[count]);
          KeepsReadTransitive(old(sheet), before, sheet);
        }
        if s == Succeeded && !written { s := CallFailed; }
        if s != Succeeded { return; }
        count := count + 1;
      }
      assert updates[..|updates|] == updates;
    }

    /** Save the candidates that are new, and post a request for approval of each. */
    method OfferCandidates(offered: seq<Candidate>) returns (s: Call)
      requires Valid()
      requires forall c :: c in offered ==> |c.proposedRow| == COLUMNS && HasId(c.proposedRow, c.envelope.id)
      modifies this`candidates
      ensures Valid() && forall id :: id in old(candidates) ==>
        id in candidates && candidates[id].status == old(candidates)[id].status
      ensures s == Succeeded ==> forall c :: c in offered ==> c.envelope.id in candidates
    {
      s := Succeeded;
      for i := 0 to |offered|
        invariant Valid() && s == Succeeded
        invariant forall id :: id in old(candidates) ==>
          id in candidates && candidates[id].status == old(candidates)[id].status
        invariant forall k :: 0 <= k < i ==> offered[k].envelope.id in candidates
      {
        var created, record := SaveCandidate(offered[i]);
        if created {
          s := *;
          if s != Succeeded { return; }
          var ok := MarkNotified(offered[i].envelope.id);
        }
      }
    }

    /** The body of a sync: the plan, made from what is read and carried out as the mode allows. */
    method CarryOut(envelopes: seq<Envelope>, year: nat, mode: Mode, ports: Ports)
      returns (s: Call, plan: Plan, updated: nat)
      requires Valid()
      modifies this`candidates, this`sheet
      ensures Valid() && KeepsRead(old(sheet), sheet) && |sheet| == |old(sheet)| && updated <= |plan.updates|
      ensures IsPlan(plan, Read(old(sheet)), envelopes, year, ports)
      ensures mode == Audit ==> sheet == old(sheet) && updated == 0
      ensures mode != Full ==> candidates == old(candidates)
      ensures s == Succeeded && mode != Audit ==>
        sheet == WriteAll(old(sheet), plan.updates) && updated == |plan.updates|
      ensures s == Succeeded && mode == Full ==> forall c :: c in plan.candidates ==> c.envelope.id in candidates
    {
      hide IsPlan, KeepsRead, EntriesOk, WriteAll;
      ReadIsKept(sheet);
      var ledger := Read(sheet);
      plan := BuildPlan(ledger, envelopes, year, ports);
      s, updated := Succeeded, 0;
      if mode != Audit {
        s, updated := WriteUpdates(plan.updates);
        if s != Succeeded { return; }
      }
      if mode == Full {
        CandidatesAreRows(plan, ledger, envelopes, year, ports);
        s := OfferCandidates(plan.candidates);
      }
    }

    // ---- Sync runs ----

    /** `claimRun`: not again once completed, nor within five minutes of another claim. */
    method ClaimSync(key: string, now: int) returns (claim: SyncClaim)
      requires Valid()
      modifies this`runs
      ensures Valid()
      ensures claim == if key in old(runs) && old(runs)[key].Finished? then Completed
        else if key in old(runs) && old(runs)[key].Running? && now - old(runs)[key].claimedAt < CLAIM_MS then InProgress
        else Claimed
      ensures runs == if claim == Claimed then old(runs)[key := Running(now)] else old(runs)
    {
      if key in runs && runs[key].Finished? { return Completed; }
      if key in runs && runs[key].Running? && now - runs[key].claimedAt < CLAIM_MS { return InProgress; }
      runs := runs[key := Running(now)];
      claim := Claimed;
    }

    /** `completeRun` and `failRun`: the stored run, replaced; the call may fail with or without effect. */
    method StoreRun(key: string, run: SyncRun) returns (s: Call)
      requires Valid() && !run.Running?
      modifies this`runs, this`lastReceipt
      ensures Valid()
      ensures (runs == old(runs) && lastReceipt == old(lastReceipt) && s != Succeeded)
           || (runs == old(runs)[key := run] && lastReceipt == Some(run.receipt))
    {
      var written: bool := *;
      s := *;
      if written { runs, lastReceipt := runs[key := run], Some(run.receipt); }
      if s == Succeeded && !written { s := CallFailed; }
    }

    /** Store that a run failed; what the caller sees is the failure itself, or that of storing it. */
    method FailSync(key: string, envelopes: nat, plan: Plan, updated: nat) returns (result: SyncResult)
      requires Valid()
      modifies this`runs, this`lastReceipt
      ensures Valid() && (result == Threw || result == SyncCrashed)
      ensures runs == old(runs) || (key in runs && runs[key].Broken? && runs == old(runs)[key := runs[key]])
    {
      var status := if updated > 0 || |plan.candidates| > 0 then SyncPartial else SyncFailed;
      var s := StoreRun(key, Broken(
        SyncReceipt(envelopes, updated, |plan.candidates|, |plan.excluded|, 1, status)));
      result := if s == CallCrashed then SyncCrashed else Threw;
    }

    /** The sync is refused, or was done before. */
    ghost predicate NotForNow(before: map<string, SyncRun>, key: string, now: int) {
      key in before
      && (before[key].Finished? || (before[key].Running? && now - before[key].claimedAt < CLAIM_MS))
    }

    /**
     * `processContractLedgerSync`: what was completed, or is being done, is left alone; what is carried out is
     * recorded as finished with its counts.
     */
    method Sync(key: string, now: int, configured: bool, fetched: Option<seq<Envelope>>, year: nat, mode: Mode,
                ports: Ports) returns (result: SyncResult, ghost plan: Plan)
      requires Valid()
      modifies this`candidates, this`sheet, this`runs, this`lastReceipt
      ensures Valid() && KeepsRead(old(sheet), sheet) && |sheet| == |old(sheet)|
      ensures NotForNow(old(runs), key, now) ==>
        && runs == old(runs) && sheet == old(sheet) && candidates == old(candidates) && lastReceipt == old(lastReceipt)
        && result == if old(runs)[key].Finished? then AlreadyDone else Refused
      ensures forall other :: other != key ==>
        (other in runs <==> other in old(runs)) && (other in runs ==> runs[other] == old(runs)[other])
      ensures result.Carried? ==>
        && key in runs && runs[key] == Finished(result.receipt) && lastReceipt == Some(result.receipt)
        && fetched.Some? && IsPlan(plan, Read(old(sheet)), fetched.value, year, ports)
        && result.receipt == SyncReceipt(|fetched.value|, if mode == Audit then 0 else |plan.updates|,
                                         |plan.candidates|, |plan.excluded|, 0, SyncSucceeded)
        && sheet == (if mode == Audit then old(sheet) else WriteAll(old(sheet), plan.updates))
      ensures mode == Audit ==> sheet == old(sheet)
      ensures mode != Full ==> candidates == old(candidates)
    {
      hide IsPlan, KeepsRead, EntriesOk, WriteAll;
      plan := Plan([], [], []);
      ReadIsKept(sheet);
      var claim := ClaimSync(key, now);
      if claim == Completed { return AlreadyDone, plan; }
      if claim == InProgress { return Refused, plan; }
      var s, ledger := ReadLedger();
      if s == CallCrashed { return SyncCrashed, plan; }
      if !configured || s == CallFailed || fetched.None? {
        result := FailSync(key, 0, Plan([], [], []), 0);
        return;
      }
      var updated, built;
      s, built, updated := CarryOut(fetched.value, year, mode, ports);
      plan := built;
      if s == CallCrashed { return SyncCrashed, plan; }
      if s == Succeeded {
        var receipt := SyncReceipt(|fetched.value|, updated, |built.candidates|, |built.excluded|, 0, SyncSucceeded);
        s := StoreRun(key, Finished(receipt));
        if s == Succeeded { return Carried(receipt), plan; }
        if s == CallCrashed { return SyncCrashed, plan; }
      }
      result := FailSync(key, |fetched.value|, built, updated);
    }
  }

  lemma ReadIsKept(sheet: seq<Row>)
    ensures KeepsRead(sheet, sheet)
  {
  }

  lemma CandidatesAreRows(plan: Plan, ledger: seq<Row>, envelopes: seq<Envelope>, year: nat, ports: Ports)
    requires IsPlan(plan, ledger, envelopes, year, ports)
    ensures forall c :: c in plan.candidates ==> |c.proposedRow| == COLUMNS && HasId(c.proposedRow, c.envelope.id)
  {
    hide Of, NextNumber;
    var unknown := Of(New, ledger, envelopes, ports);
    forall c | c in plan.candidates ensures |c.proposedRow| == COLUMNS && HasId(c.proposedRow, c.envelope.id) {
      var k :| 0 <= k < |plan.candidates| && plan.candidates[k] == c;
      assert unknown[k] in unknown;
    }
  }

  // ---- A whole life ----

  datatype Request =
    | Synced(key: string, now: int, configured: bool, fetched: Option<seq<Envelope>>, year: nat)
    | Decided(approval: Approval)

  /** At most one row was entered for each envelope, as long as the sheet was shorter than what is read. */
  ghost predicate EnteredOnce(entries: seq<Entry>) {
    forall i, j :: 0 <= i < j < |entries| && entries[i].rows < READ_ROWS ==>
      entries[i].envelopeId != entries[j].envelopeId
  }

  lemma EntriesAreEnteredOnce(sheet: seq<Row>, entries: seq<Entry>)
    requires EntriesOk(sheet, entries)
    ensures EnteredOnce(entries)
  {
  }

  /**
   * Syncs and decisions in any order, each possibly lost or interrupted anywhere: whatever readers saw stays,
   * approved envelopes are in the sheet, no envelope is entered twice, and a sheet in which every envelope and
   * every number stood once still holds each of them once.
   */
  method Live(sheet: seq<Row>, mode: Mode, ports: Ports, yearOf: string -> nat, requests: seq<Request>)
    returns (w: Ledger)
    requires sheet != []
    ensures w.Valid() && KeepsRead(sheet, w.sheet) && (mode != Full ==> w.entries == [])
    ensures EnteredOnce(w.entries)
    ensures Tidy(Read(sheet)) ==> Tidy(Read(w.sheet))
    ensures Tidy(Read(sheet)) && |w.sheet| <= READ_ROWS ==> Tidy(w.sheet)
  {
    hide IsPlan, KeepsRead, EntriesOk, Tidy, EnteredOnce;
    w := new Ledger(sheet);
    ReadIsKept(sheet);
    for i := 0 to |requests|
      invariant fresh(w) && w.Valid() && KeepsRead(sheet, w.sheet)
      invariant mode != Full ==> w.entries == []
      invariant Tidy(Read(sheet)) ==> Tidy(Read(w.sheet))
    {
      ghost var before := w.sheet;
      match requests[i] {
        case Synced(key, now, configured, fetched, year) =>
          var result, plan := w.Sync(key, now, configured, fetched, year, mode, ports);
          if Tidy(Read(before)) { KeepingKeepsTidy(before, w.sheet); }
        case Decided(approval) =>
          var result := w.Decide(approval, mode, yearOf);
      }
      KeepsReadTransitive(sheet, before, w.sheet);
    }
    EntriesAreEnteredOnce(w.sheet, w.entries);
  }
}
