/**
 * The autonomy run ledger as its clients see it: one experiment, every terminal record in the order
 * it was written, and at most one active run. Storage keys, the recent window and the checkpoint are
 * an implementation of this (module RunHistory).
 */
module RunLedger {
  import opened Options
  import opened Tails
  import opened RunEvidence

  const RECENT_RUN_LIMIT := 20
  const EVIDENCE_PER_RUN_LIMIT := 20
  /** Ten minutes, in milliseconds. */
  const STALE_RUN_MS := 10 * 60 * 1000
  const EXPERIMENT_MAX_MS := 24 * 60 * 60 * 1000

  datatype Status = Completed | Failed

  datatype TerminalRecord = TerminalRecord(
    runId: string, sequence: nat, experimentId: string, actorId: string, project: string,
    startedAt: int, completedAt: int, status: Status,
    outcomeCode: Option<string>, errorCode: Option<string>, evidence: seq<Evidence>)

  datatype Checkpoint = Checkpoint(
    compactedRunCount: nat, firstSequence: nat, lastSequence: nat,
    completedRuns: nat, failedRuns: nat, runIds: seq<string>, evidence: seq<Evidence>)

  datatype Claim = Claim(
    runId: string, experimentId: string, actorId: string, project: string,
    startedAt: int, experimentExpiresAt: int)

  datatype ActiveRun = ActiveRun(claim: Claim, sequence: nat)

  datatype Finish =
    | Complete(runId: string, completedAt: int, outcomeCode: Option<string>, evidence: Option<seq<Evidence>>)
    | Fail(runId: string, completedAt: int, errorCode: string, evidence: Option<seq<Evidence>>)

  datatype ClaimOutcome = Invalid | ExperimentMismatch | Replay | Busy | Claimed

  datatype FinishOutcome = InvalidFinish | ReplayFinish | NotActive | InvalidTime | Appended

  datatype Ledger = Ledger(experiment: Option<string>, log: seq<TerminalRecord>, active: Option<ActiveRun>)

  const EMPTY := Ledger(None, [], None)

  // ---- Validators ----

  predicate ValidText(value: string, max: nat) {
    0 < |value| <= max && forall i :: 0 <= i < |value| ==> ' ' <= value[i] && value[i] != '\U{7f}'
  }

  predicate CodeCharacter(c: char) {
    'a' <= c <= 'z' || '0' <= c <= '9' || c == '_'
  }

  predicate ValidCode(value: string) {
    0 < |value| <= 64 && forall i :: 0 <= i < |value| ==> CodeCharacter(value[i])
  }

  predicate ValidCodeOption(value: Option<string>) {
    value.Some? ==> ValidCode(value.value)
  }

  predicate AllEvidenceValid(evidence: seq<Evidence>) {
    forall i :: 0 <= i < |evidence| ==> ValidText(evidence[i].id, 500)
  }

  predicate ValidEvidence(evidence: Option<seq<Evidence>>) {
    evidence.Some? ==> |evidence.value| <= EVIDENCE_PER_RUN_LIMIT && AllEvidenceValid(evidence.value)
  }

  predicate ValidClaim(c: Claim) {
    && ValidText(c.runId, 500) && ValidText(c.experimentId, 128)
    && ValidText(c.actorId, 128) && ValidText(c.project, 128)
    && 0 <= c.startedAt < c.experimentExpiresAt
    && c.experimentExpiresAt - c.startedAt <= EXPERIMENT_MAX_MS
  }

  predicate ValidFinish(f: Finish) {
    && ValidText(f.runId, 500) && 0 <= f.completedAt && ValidEvidence(f.evidence)
    && (match f
        case Complete(_, _, outcomeCode, _) => ValidCodeOption(outcomeCode)
        case Fail(_, _, errorCode, _) => ValidCode(errorCode))
  }

  predicate IsActiveRun(a: ActiveRun) {
    && ValidText(a.claim.runId, 500) && ValidText(a.claim.experimentId, 128)
    && ValidText(a.claim.actorId, 128) && ValidText(a.claim.project, 128)
    && 0 <= a.claim.startedAt && 0 <= a.claim.experimentExpiresAt && 1 <= a.sequence
  }

  predicate IsTerminalRecord(r: TerminalRecord) {
    && ValidText(r.runId, 500) && 1 <= r.sequence && ValidText(r.experimentId, 128)
    && ValidText(r.actorId, 128) && ValidText(r.project, 128)
    && 0 <= r.startedAt && 0 <= r.completedAt
    && ValidCodeOption(r.outcomeCode) && ValidCodeOption(r.errorCode) && AllEvidenceValid(r.evidence)
  }

  predicate IsCheckpoint(c: Checkpoint) {
    && 1 <= c.compactedRunCount && 1 <= c.firstSequence <= c.lastSequence
    && (forall i :: 0 <= i < |c.runIds| ==> ValidText(c.runIds[i], 500))
    && AllEvidenceValid(c.evidence)
  }

  // ---- Terminal records ----

  const STALE_CODE := "autonomy_run_stale"
  const COMPLETED_CODE := "autonomy_run_completed"

  /** The record written for an active run that a later claim displaces. */
  function StaleRecord(a: ActiveRun, displacedAt: int): TerminalRecord {
    TerminalRecord(a.claim.runId, a.sequence, a.claim.experimentId, a.claim.actorId, a.claim.project,
                   a.claim.startedAt, displacedAt, Failed, None, Some(STALE_CODE), [])
  }

  function OrElse<T>(value: Option<T>, default: T): T {
    match value
    case Some(v) => v
    case None => default
  }

  /** The record written when the active run reports its own end. */
  function FinishRecord(a: ActiveRun, f: Finish): TerminalRecord {
    match f
    case Complete(_, at, code, evidence) =>
      TerminalRecord(a.claim.runId, a.sequence, a.claim.experimentId, a.claim.actorId, a.claim.project,
                     a.claim.startedAt, at, Completed, Some(OrElse(code, COMPLETED_CODE)), None,
                     OrElse(evidence, []))
    case Fail(_, at, code, evidence) =>
      TerminalRecord(a.claim.runId, a.sequence, a.claim.experimentId, a.claim.actorId, a.claim.project,
                     a.claim.startedAt, at, Failed, None, Some(code), OrElse(evidence, []))
  }

  ghost predicate Known(log: seq<TerminalRecord>, runId: string) {
    exists i :: 0 <= i < |log| && log[i].runId == runId
  }

  // ---- What one request does to the ledger ----

  ghost function ClaimStep(l: Ledger, c: Claim): (Ledger, ClaimOutcome) {
    if !ValidClaim(c) then (l, Invalid)
    else if l.experiment.Some? && l.experiment.value != c.experimentId then (l, ExperimentMismatch)
    else
      var bound := l.(experiment := Some(c.experimentId));
      if Known(l.log, c.runId) then (bound, Replay)
      else if l.active.None? then
        (bound.(active := Some(ActiveRun(c, |l.log| + 1))), Claimed)
      else if c.startedAt - l.active.value.claim.startedAt <= STALE_RUN_MS then (bound, Busy)
      else
        var displaced := bound.(log := l.log + [StaleRecord(l.active.value, c.startedAt)], active := None);
        if l.active.value.claim.runId == c.runId then (displaced, Replay)
        else (displaced.(active := Some(ActiveRun(c, |displaced.log| + 1))), Claimed)
  }

  ghost function FinishStep(l: Ledger, f: Finish): (Ledger, FinishOutcome) {
    if !ValidFinish(f) then (l, InvalidFinish)
    else if Known(l.log, f.runId) then (l, ReplayFinish)
    else if l.active.None? || l.active.value.claim.runId != f.runId then (l, NotActive)
    else if f.completedAt < l.active.value.claim.startedAt then (l, InvalidTime)
    else (l.(log := l.log + [FinishRecord(l.active.value, f)], active := None), Appended)
  }

  // ---- What every reachable ledger satisfies ----

  ghost predicate DistinctRuns(log: seq<TerminalRecord>) {
    forall i, j :: 0 <= i < j < |log| ==> log[i].runId != log[j].runId
  }

  ghost predicate Sound(l: Ledger) {
    && DistinctRuns(l.log)
    && (forall i :: 0 <= i < |l.log| ==>
          && l.log[i].sequence == i + 1
          && IsTerminalRecord(l.log[i]) && l.log[i].startedAt <= l.log[i].completedAt
          && l.experiment == Some(l.log[i].experimentId))
    && (l.active.Some? ==>
          && l.active.value.sequence == |l.log| + 1
          && IsActiveRun(l.active.value) && ValidClaim(l.active.value.claim)
          && l.experiment == Some(l.active.value.claim.experimentId)
          && !Known(l.log, l.active.value.claim.runId))
  }

  lemma StaleRecordValid(a: ActiveRun, at: int)
    requires IsActiveRun(a) && 0 <= at
    ensures IsTerminalRecord(StaleRecord(a, at))
  {
    assert |STALE_CODE| == 18 && ValidCode(STALE_CODE);
  }

  lemma FinishRecordValid(a: ActiveRun, f: Finish)
    requires IsActiveRun(a) && ValidFinish(f)
    ensures IsTerminalRecord(FinishRecord(a, f))
  {
    assert |COMPLETED_CODE| == 22 && ValidCode(COMPLETED_CODE);
  }

  lemma EndKeepsSound(l: Ledger, record: TerminalRecord)
    requires Sound(l) && l.active.Some? && IsTerminalRecord(record)
    requires record.runId == l.active.value.claim.runId && record.sequence == l.active.value.sequence
    requires Some(record.experimentId) == l.experiment && record.startedAt <= record.completedAt
    ensures Sound(l.(log := l.log + [record], active := None))
  {
    var all := l.log + [record];
    forall i | 0 <= i < |l.log| ensures all[i] == l.log[i] && all[i].runId != record.runId {
    }
  }

  lemma ClaimKeepsSound(l: Ledger, c: Claim)
    requires Sound(l)
    ensures Sound(ClaimStep(l, c).0)
  {
    if l.active.Some? && 0 <= c.startedAt {
      StaleRecordValid(l.active.value, c.startedAt);
    }
  }

  lemma FinishKeepsSound(l: Ledger, f: Finish)
    requires Sound(l)
    ensures Sound(FinishStep(l, f).0)
  {
    if l.active.Some? && ValidFinish(f) {
      FinishRecordValid(l.active.value, f);
    }
  }

  // ---- What a checkpoint says about the runs it replaced ----

  function Ids(log: seq<TerminalRecord>): (r: seq<string>)
    ensures |r| == |log|
    ensures forall i :: 0 <= i < |r| ==> r[i] == log[i].runId
  {
    seq(|log|, i requires 0 <= i < |log| => log[i].runId)
  }

  ghost function CountStatus(log: seq<TerminalRecord>, status: Status): nat {
    if log == [] then 0
    else CountStatus(log[..|log| - 1], status) + if log[|log| - 1].status == status then 1 else 0
  }

  ghost function AllEvidence(log: seq<TerminalRecord>): seq<Evidence> {
    if log == [] then []
    else AllEvidence(log[..|log| - 1]) + log[|log| - 1].evidence
  }

  /** The checkpoint that stands for `evicted`, from the records themselves and in one go. */
  ghost function Summary(evicted: seq<TerminalRecord>): Option<Checkpoint> {
    if evicted == [] then None
    else Some(Checkpoint(
      |evicted|, evicted[0].sequence, evicted[|evicted| - 1].sequence,
      CountStatus(evicted, Completed), CountStatus(evicted, Failed),
      Last(Ids(evicted), CHECKPOINT_REFERENCE_LIMIT), Newest(AllEvidence(evicted))))
  }

  /** The records a ledger no longer keeps in its recent window. */
  ghost function Evicted(log: seq<TerminalRecord>): seq<TerminalRecord> {
    if |log| <= RECENT_RUN_LIMIT then [] else log[..|log| - RECENT_RUN_LIMIT]
  }
}
