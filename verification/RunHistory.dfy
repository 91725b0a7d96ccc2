/** The durable object that stores the ledger: keyed values, a recent window and a folded checkpoint. */
module RunHistory {
  import opened Options
  import opened Tails
  import opened RunEvidence
  import opened RunLedger

  // ---- Facts about summaries ----

  lemma {:induction false} AllEvidenceIsValid(log: seq<TerminalRecord>)
    requires forall i :: 0 <= i < |log| ==> IsTerminalRecord(log[i])
    ensures AllEvidenceValid(AllEvidence(log))
  {
    if log != [] {
      AllEvidenceIsValid(log[..|log| - 1]);
    }
  }

  lemma SummaryIsCheckpoint(log: seq<TerminalRecord>)
    requires log != []
    requires forall i :: 0 <= i < |log| ==> IsTerminalRecord(log[i]) && log[i].sequence == i + 1
    ensures IsCheckpoint(Summary(log).value)
  {
    AllEvidenceIsValid(log);
    var all := AllEvidence(log);
    DistinctKeepsMembers(all);
    forall i | 0 <= i < |Newest(all)| ensures ValidText(Newest(all)[i].id, 500) {
      assert Newest(all)[i] in Distinct(all);
    }
  }

  lemma AppendToLists(evicted: seq<TerminalRecord>, record: TerminalRecord)
    ensures (evicted + [record])[..|evicted|] == evicted
    ensures Ids(evicted + [record]) == Ids(evicted) + [record.runId]
    ensures AllEvidence(evicted + [record]) == AllEvidence(evicted) + record.evidence
    ensures forall s :: CountStatus(evicted + [record], s)
                     == CountStatus(evicted, s) + if record.status == s then 1 else 0
  {
    assert (evicted + [record])[..|evicted|] == evicted;
  }

  lemma NewestOfAppend(evicted: seq<TerminalRecord>, record: TerminalRecord)
    ensures Newest(AllEvidence(evicted + [record])) == Newest(Newest(AllEvidence(evicted)) + record.evidence)
    ensures Last(Ids(evicted + [record]), CHECKPOINT_REFERENCE_LIMIT)
         == Last(Last(Ids(evicted), CHECKPOINT_REFERENCE_LIMIT) + [record.runId], CHECKPOINT_REFERENCE_LIMIT)
  {
    AppendToLists(evicted, record);
    NewestAbsorbs(AllEvidence(evicted), record.evidence);
    LastOfLast(Ids(evicted), record.runId, CHECKPOINT_REFERENCE_LIMIT);
  }

  /** What a fold starts from; an absent checkpoint counts nothing and begins at the folded record. */
  function Previous(checkpoint: Option<Checkpoint>, record: TerminalRecord): Checkpoint {
    if checkpoint.Some? then checkpoint.value else Checkpoint(0, record.sequence, 0, 0, 0, [], [])
  }

  lemma PreviousIsSummary(evicted: seq<TerminalRecord>, record: TerminalRecord)
    ensures var p := Previous(Summary(evicted), record);
      && p.compactedRunCount == |evicted|
      && p.firstSequence == (evicted + [record])[0].sequence
      && p.completedRuns == CountStatus(evicted, Completed) && p.failedRuns == CountStatus(evicted, Failed)
      && p.runIds == Last(Ids(evicted), CHECKPOINT_REFERENCE_LIMIT)
      && p.evidence == Newest(AllEvidence(evicted))
  {
    if evicted == [] {
      assert Newest([]) == [];
    }
  }

  lemma SummaryPresent(evicted: seq<TerminalRecord>)
    ensures Summary(evicted).None? <==> evicted == []
  {
  }

  /** A checkpoint with one more record folded in. */
  function Folded(previous: Checkpoint, record: TerminalRecord, runIds: seq<string>, evidence: seq<Evidence>)
    : Checkpoint
  {
    Checkpoint(
      previous.compactedRunCount + 1, previous.firstSequence, record.sequence,
      previous.completedRuns + (if record.status == Completed then 1 else 0),
      previous.failedRuns + (if record.status == Failed then 1 else 0),
      runIds, evidence)
  }

  lemma FoldedIsSummary(evicted: seq<TerminalRecord>, record: TerminalRecord)
    ensures var p := Previous(Summary(evicted), record);
      Summary(evicted + [record]) ==
        Some(Folded(p, record, Last(p.runIds + [record.runId], CHECKPOINT_REFERENCE_LIMIT),
                    Newest(p.evidence + record.evidence)))
  {
    PreviousIsSummary(evicted, record);
    AppendToLists(evicted, record);
    NewestOfAppend(evicted, record);
    hide Newest, AllEvidence, CountStatus, Last, Ids, Previous;
    assert evicted + [record] != [] && (evicted + [record])[|evicted|] == record;
  }

  /** Folding one more evicted record into a checkpoint summarises one record more. */
  method FoldCheckpoint(checkpoint: Option<Checkpoint>, record: TerminalRecord, ghost evicted: seq<TerminalRecord>)
    returns (folded: Checkpoint)
    requires checkpoint == Summary(evicted)
    ensures Some(folded) == Summary(evicted + [record])
  {
    hide Newest, Summary, Last;
    var previous := Previous(checkpoint, record);
    var evidence := DedupeEvidence(previous.evidence + record.evidence);
    var runIds := Last(previous.runIds + [record.runId], CHECKPOINT_REFERENCE_LIMIT);
    folded := Folded(previous, record, runIds, evidence);
    FoldedIsSummary(evicted, record);
  }

  // ---- The stored object ----

  const CLEANUP_GRACE_MS := 60_000

  /** The stored identifiers that are valid text; anything else in the list is ignored. */
  function StringArray(ids: seq<string>): (r: seq<string>)
    ensures (forall i :: 0 <= i < |ids| ==> ValidText(ids[i], 500)) ==> r == ids
  {
    if ids == [] then []
    else (if ValidText(ids[0], 500) then [ids[0]] else []) + StringArray(ids[1..])
  }

  function Except(ids: seq<string>, id: string): (r: seq<string>)
    ensures id !in ids ==> r == ids
  {
    if ids == [] then []
    else (if ids[0] != id then [ids[0]] else []) + Except(ids[1..], id)
  }

  /** `records` holds exactly the records of `log`, each under its run id. */
  ghost predicate Stores(records: map<string, TerminalRecord>, log: seq<TerminalRecord>) {
    && (forall i :: 0 <= i < |log| ==> log[i].runId in records && records[log[i].runId] == log[i])
    && (forall id :: id in records ==> Known(log, id))
  }

  lemma StoresOneMore(records: map<string, TerminalRecord>, log: seq<TerminalRecord>, record: TerminalRecord)
    requires Stores(records, log) && !Known(log, record.runId)
    ensures Stores(records[record.runId := record], log + [record])
  {
    var all, stored := log + [record], records[record.runId := record];
    forall i | 0 <= i < |all| ensures all[i].runId in stored && stored[all[i].runId] == all[i] {
      assert i < |log| ==> all[i] == log[i];
    }
    forall id | id in stored ensures Known(all, id) {
      assert all[|log|].runId == record.runId;
      if id != record.runId {
        var i :| 0 <= i < |log| && log[i].runId == id;
        assert all[i].runId == id;
      }
    }
  }

  lemma RecentIdsValid(log: seq<TerminalRecord>)
    requires forall i :: 0 <= i < |log| ==> IsTerminalRecord(log[i])
    ensures StringArray(Ids(Last(log, RECENT_RUN_LIMIT))) == Ids(Last(log, RECENT_RUN_LIMIT))
  {
    var recent := Last(log, RECENT_RUN_LIMIT);
    forall i | 0 <= i < |recent| ensures ValidText(Ids(recent)[i], 500) {
      assert recent[i] == log[|log| - |recent| + i];
    }
  }

  /** The window before any compaction: every record since the last eviction, and the new one. */
  lemma WindowGrows(log: seq<TerminalRecord>, record: TerminalRecord)
    requires forall i :: 0 <= i < |log| ==> IsTerminalRecord(log[i])
    requires !Known(log, record.runId)
    ensures Except(StringArray(Ids(Last(log, RECENT_RUN_LIMIT))), record.runId) + [record.runId]
         == Ids((log + [record])[|Evicted(log)|..])
    ensures |Evicted(log)| <= |log| && (log + [record])[..|Evicted(log)|] == Evicted(log)
    ensures Evicted(log) == [] || |log| + 1 - |Evicted(log)| >= RECENT_RUN_LIMIT
    ensures Evicted(log + [record]) == [] ==> Evicted(log) == []
  {
    RecentIdsValid(log);
    var recent := Last(log, RECENT_RUN_LIMIT);
    forall i | 0 <= i < |recent| ensures Ids(recent)[i] != record.runId {
      assert recent[i] == log[|log| - |recent| + i];
    }
    assert Except(Ids(recent), record.runId) == Ids(recent);
    assert (log + [record])[|Evicted(log)|..] == recent + [record];
  }

  lemma WindowStored(stored: map<string, TerminalRecord>, log: seq<TerminalRecord>)
    requires Stores(stored, log) && forall i :: 0 <= i < |log| ==> IsTerminalRecord(log[i])
    ensures forall i :: 0 <= i < |Last(log, RECENT_RUN_LIMIT)| ==>
      var r := Last(log, RECENT_RUN_LIMIT)[i];
      r.runId in stored && stored[r.runId] == r && IsTerminalRecord(r)
  {
    var recent := Last(log, RECENT_RUN_LIMIT);
    forall i | 0 <= i < |recent| ensures recent[i] == log[|log| - |recent| + i] {
    }
  }

  /** The stored records of a list of identifiers; an identifier without a valid record is skipped. */
  method ReadRecords(stored: map<string, TerminalRecord>, ids: seq<string>, ghost window: seq<TerminalRecord>)
    returns (recent: seq<TerminalRecord>)
    requires ids == Ids(window)
    requires forall i :: 0 <= i < |window| ==>
      window[i].runId in stored && stored[window[i].runId] == window[i] && IsTerminalRecord(window[i])
    ensures recent == window
  {
    recent := [];
    for i := 0 to |ids|
      invariant recent == window[..i]
    {
      if ids[i] in stored && IsTerminalRecord(stored[ids[i]]) {
        recent := recent + [stored[ids[i]]];
      }
    }
  }

  /** Shift identifiers out of the window until it fits, folding their records into the checkpoint. */
  method Compact(stored: map<string, TerminalRecord>, window: seq<string>, checkpoint: Option<Checkpoint>,
                 ghost log: seq<TerminalRecord>, ghost start: nat)
    returns (ids: seq<string>, folded: Option<Checkpoint>)
    requires Stores(stored, log) && forall i :: 0 <= i < |log| ==> IsTerminalRecord(log[i])
    requires start <= |log| && (start == 0 || |log| - start >= RECENT_RUN_LIMIT)
    requires window == Ids(log[start..]) && checkpoint == Summary(log[..start])
    ensures ids == Ids(Last(log, RECENT_RUN_LIMIT)) && folded == Summary(Evicted(log))
  {
    hide Summary;
    ghost var gone := start;
    ids, folded := window, checkpoint;
    while |ids| > RECENT_RUN_LIMIT
      invariant 0 <= gone <= |log| && (gone == 0 || |log| - gone >= RECENT_RUN_LIMIT)
      invariant ids == Ids(log[gone..]) && folded == Summary(log[..gone])
      decreases |ids|
    {
      var id := ids[0];
      ids := ids[1..];
      assert id == log[gone].runId;
      if id == "" { break; }
      if id in stored && IsTerminalRecord(stored[id]) {
        assert log[..gone] + [log[gone]] == log[..gone + 1];
        var next := FoldCheckpoint(folded, stored[id], log[..gone]);
        folded := Some(next);
      }
      gone := gone + 1;
    }
    assert log[gone..] == Last(log, RECENT_RUN_LIMIT) && log[..gone] == Evicted(log);
  }

  class RunHistory {
    var experiment: Option<string>
    var active: Option<ActiveRun>
    var nextSequence: Option<nat>
    var recentIds: seq<string>
    var checkpoint: Option<Checkpoint>
    var records: map<string, TerminalRecord>
    /** When everything stored is deleted. */
    var alarm: Option<int>
    ghost var log: seq<TerminalRecord>

    ghost function View(): Ledger
      reads this
    {
      Ledger(experiment, log, active)
    }

    /** The stored records, window and checkpoint are those of `log`. */
    ghost predicate StoresLog()
      reads this`log, this`records, this`recentIds, this`checkpoint
    {
      && Stores(records, log)
      && recentIds == Ids(Last(log, RECENT_RUN_LIMIT))
      && checkpoint == Summary(Evicted(log))
    }

    ghost predicate Valid()
      reads this
    {
      && Sound(View())
      && StoresLog()
      && nextSequence == (if log == [] && active.None? then None
                          else Some(|log| + if active.Some? then 1 else 0))
    }

    constructor ()
      ensures Valid() && View() == EMPTY && alarm == None
    {
      experiment, active, nextSequence, alarm := None, None, None, None;
      recentIds, checkpoint, records := [], None, map[];
      log := [];
    }

    /** The alarm: everything is deleted, and a new history may begin. */
    method Expire()
      requires Valid()
      modifies this
      ensures Valid() && View() == EMPTY && alarm == None
    {
      experiment, active, nextSequence, alarm := None, None, None, None;
      recentIds, checkpoint, records := [], None, map[];
      log := [];
    }

    lemma CheckpointValid()
      requires Valid() && checkpoint.Some?
      ensures IsCheckpoint(checkpoint.value)
    {
      SummaryIsCheckpoint(Evicted(log));
    }

    /** The stored terminal record of a run, as every request looks it up. */
    function Lookup(runId: string): (record: Option<TerminalRecord>)
      requires Valid()
      reads this
      ensures record.Some? <==> Known(log, runId)
      ensures record.Some? ==> record.value in log && record.value.runId == runId
    {
      if runId in records && IsTerminalRecord(records[runId]) then Some(records[runId]) else None
    }

    /** Store a terminal record and fold what falls out of the recent window into the checkpoint. */
    method AppendTerminalRecord(record: TerminalRecord) returns (appended: bool)
      requires Valid() && IsTerminalRecord(record) && record.sequence == |log| + 1
      modifies this`records, this`recentIds, this`checkpoint, this`log
      ensures appended <==> !Known(old(log), record.runId)
      ensures log == (if appended then old(log) + [record] else old(log)) && StoresLog()
    {
      hide Summary, Last, Evicted, ValidText, AllEvidenceValid, IsTerminalRecord, StringArray, Except;
      var existing := Lookup(record.runId);
      if existing.Some? { return false; }
      if checkpoint.Some? { CheckpointValid(); }
      ghost var start := |Evicted(log)|;
      StoresOneMore(records, log, record);
      WindowGrows(log, record);
      var window := Except(StringArray(recentIds), record.runId) + [record.runId];
      var previous := if checkpoint.Some? && IsCheckpoint(checkpoint.value) then checkpoint else None;
      log := log + [record];
      records := records[record.runId := record];
      var ids, folded := Compact(records, window, previous, log, start);
      recentIds := ids;
      if folded.Some? { checkpoint := folded; }
      SummaryPresent(Evicted(old(log)));
      SummaryPresent(Evicted(log));
      return true;
    }

    /** Write the active run's terminal record and clear the slot. */
    method End(record: TerminalRecord)
      requires Valid() && active.Some?
      requires IsTerminalRecord(record) && record.runId == active.value.claim.runId
      requires record.sequence == active.value.sequence && Some(record.experimentId) == experiment
      requires record.startedAt <= record.completedAt
      modifies this`records, this`recentIds, this`checkpoint, this`log, this`active
      ensures Valid() && View() == old(View()).(log := old(log) + [record], active := None)
    {
      EndKeepsSound(View(), record);
      var _ := AppendTerminalRecord(record);
      active := None;
    }

    /** `POST /claim`: one storage transaction, and after a grant the alarm a minute past the experiment's end. */
    method ClaimRun(c: Claim) returns (outcome: ClaimOutcome)
      requires Valid()
      modifies this
      ensures Valid() && (View(), outcome) == ClaimStep(old(View()), c)
      ensures alarm == if outcome == Claimed then Some(c.experimentExpiresAt + CLEANUP_GRACE_MS) else old(alarm)
    {
      hide StoresLog, ValidText;
      if !ValidClaim(c) { return Invalid; }
      if experiment.Some? && experiment.value != c.experimentId { return ExperimentMismatch; }
      if experiment.None? { experiment := Some(c.experimentId); }
      if Lookup(c.runId).Some? { return Replay; }
      var current := if active.Some? && IsActiveRun(active.value) then active else None;
      if current.Some? {
        var elapsed := c.startedAt - current.value.claim.startedAt;
        if elapsed <= STALE_RUN_MS { return Busy; }
        StaleRecordValid(current.value, c.startedAt);
        End(StaleRecord(current.value, c.startedAt));
        if current.value.claim.runId == c.runId { return Replay; }
      }
      var sequence := if nextSequence.Some? then nextSequence.value + 1 else 1;
      nextSequence := Some(sequence);
      active := Some(ActiveRun(c, sequence));
      alarm := Some(c.experimentExpiresAt + CLEANUP_GRACE_MS);
      return Claimed;
    }

    /** `POST /complete` and `POST /fail`, one storage transaction. */
    method FinishRun(f: Finish) returns (outcome: FinishOutcome)
      requires Valid()
      modifies this
      ensures Valid() && (View(), outcome) == FinishStep(old(View()), f) && alarm == old(alarm)
    {
      if !ValidFinish(f) { return InvalidFinish; }
      if Lookup(f.runId).Some? { return ReplayFinish; }
      if active.None? || !IsActiveRun(active.value) || active.value.claim.runId != f.runId { return NotActive; }
      if f.completedAt < active.value.claim.startedAt { return InvalidTime; }
      FinishRecordValid(active.value, f);
      End(FinishRecord(active.value, f));
      return Appended;
    }

    /** `GET /projection`: the recent window in full and the checkpoint for everything before it. */
    method Projection() returns (summary: Option<Checkpoint>, recent: seq<TerminalRecord>)
      requires Valid()
      ensures summary == Summary(Evicted(log))
      ensures recent == Last(log, RECENT_RUN_LIMIT)
    {
      hide Summary;
      RecentIdsValid(log);
      WindowStored(records, log);
      recent := ReadRecords(records, StringArray(recentIds), Last(log, RECENT_RUN_LIMIT));
      if checkpoint.Some? { CheckpointValid(); }
      summary := if checkpoint.Some? && IsCheckpoint(checkpoint.value) then checkpoint else None;
    }

    /** `GET /run`: the terminal record of a run, if it has ended. */
    method ReadRun(runId: string) returns (record: Option<TerminalRecord>)
      requires Valid()
      ensures record.Some? <==> ValidText(runId, 500) && Known(log, runId)
      ensures record.Some? ==> record.value in log && record.value.runId == runId
    {
      record := if ValidText(runId, 500) then Lookup(runId) else None;
    }
  }
}
