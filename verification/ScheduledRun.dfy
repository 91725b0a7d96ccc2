/**
 * `runScheduledAutonomy` as a client of the run ledger. Other clients may act between its requests, and
 * every request may be dropped or may lose its response.
 */
module ScheduledRun {
  import opened Options
  import opened RunEvidence
  import opened RunLedger
  import opened RunLedgerRuns
  import H = RunHistory

  datatype Experiment = Experiment(id: string, actorId: string, project: string, expiresAt: int, disabled: bool)

  /** What the run itself produces. */
  datatype Work = Work(outcomeCode: Option<string>, evidence: Option<seq<Evidence>>)

  datatype Transport = Answered | ResponseLost | Dropped

  /**
   * `instant` is `now` as an ISO string, `work` is absent when reading the projection, reading the
   * canonical state, issuing the capability or the run throws, and `whileWorking`, `beforeFail` are the
   * requests of other clients.
   */
  datatype Input = Input(
    experiment: Option<Experiment>, configured: bool, now: int, instant: string, work: Option<Work>,
    claimSent: Transport, finishSent: Transport, failSent: Transport,
    whileWorking: seq<Request>, beforeFail: seq<Request>)
  {
    function RunId(): string
      requires experiment.Some?
    {
      experiment.value.id + ":" + instant
    }

    function OwnClaim(): Claim
      requires experiment.Some?
    {
      var e := experiment.value;
      Claim(RunId(), e.id, e.actorId, e.project, now, e.expiresAt)
    }

    function OwnComplete(): Finish
      requires experiment.Some? && work.Some?
    {
      Complete(RunId(), now, work.value.outcomeCode, work.value.evidence)
    }

    function OwnFail(): Finish
      requires experiment.Some?
    {
      Fail(RunId(), now, FAILED_CODE, None)
    }
  }

  const FAILED_CODE := "autonomy_run_failed"

  datatype Outcome = Inactive | Disabled | Rejected | BusySlot | Replayed | Ran | Threw

  ghost function Deliver(l: Ledger, r: Request, t: Transport): Ledger {
    if t.Dropped? then l else Step(l, r)
  }

  /** The ledger just before the run reports completion. */
  ghost function BeforeFinish(l: Ledger, x: Input): Ledger
    requires x.experiment.Some?
  {
    Apply(ClaimStep(l, x.OwnClaim()).0, x.whileWorking)
  }

  ghost predicate ClaimedSlot(l: Ledger, x: Input) {
    && x.experiment.Some? && !x.experiment.value.disabled && x.configured
    && x.claimSent.Answered? && ClaimStep(l, x.OwnClaim()).1 == Claimed
  }

  ghost predicate FinishAccepted(l: Ledger, x: Input)
    requires x.experiment.Some?
  {
    && x.work.Some? && x.finishSent.Answered?
    && FinishStep(BeforeFinish(l, x), x.OwnComplete()).1 in {Appended, ReplayFinish}
  }

  /** The ledger after the whole run, and what the run returns. */
  ghost function Scheduled(l: Ledger, x: Input): (Ledger, Outcome) {
    if x.experiment.None? then (l, Inactive)
    else if x.experiment.value.disabled then (l, Disabled)
    else if !x.configured then (l, Rejected)
    else if !ClaimedSlot(l, x) then
      (Deliver(l, ClaimRequest(x.OwnClaim()), x.claimSent),
       if !x.claimSent.Answered? then Rejected
       else match ClaimStep(l, x.OwnClaim()).1
         case Busy => BusySlot
         case Replay => Replayed
         case _ => Rejected)
    else
      var finished := if x.work.Some? then Deliver(BeforeFinish(l, x), FinishRequest(x.OwnComplete()), x.finishSent)
                      else BeforeFinish(l, x);
      if FinishAccepted(l, x) then (finished, Ran)
      else (Deliver(Apply(finished, x.beforeFail), FinishRequest(x.OwnFail()), x.failSent), Threw)
  }

  method Serve(history: H.RunHistory, requests: seq<Request>)
    requires history.Valid()
    modifies history
    ensures history.Valid() && history.View() == Apply(old(history.View()), requests)
  {
    for i := 0 to |requests|
      invariant history.Valid() && history.View() == Apply(old(history.View()), requests[..i])
    {
      assert requests[..i + 1][..i] == requests[..i];
      match requests[i] {
        case ClaimRequest(c) => var _ := history.ClaimRun(c);
        case FinishRequest(f) => var _ := history.FinishRun(f);
      }
    }
    assert requests[..|requests|] == requests;
  }

  method SendClaim(history: H.RunHistory, c: Claim, t: Transport) returns (outcome: Option<ClaimOutcome>)
    requires history.Valid()
    modifies history
    ensures history.Valid() && history.View() == Deliver(old(history.View()), ClaimRequest(c), t)
    ensures outcome == if t.Answered? then Some(ClaimStep(old(history.View()), c).1) else None
  {
    outcome := None;
    if !t.Dropped? {
      var answer := history.ClaimRun(c);
      if t.Answered? { outcome := Some(answer); }
    }
  }

  method SendFinish(history: H.RunHistory, f: Finish, t: Transport) returns (accepted: bool)
    requires history.Valid()
    modifies history
    ensures history.Valid() && history.View() == Deliver(old(history.View()), FinishRequest(f), t)
    ensures accepted <==> t.Answered? && FinishStep(old(history.View()), f).1 in {Appended, ReplayFinish}
  {
    accepted := false;
    if !t.Dropped? {
      var answer := history.FinishRun(f);
      accepted := t.Answered? && (answer == Appended || answer == ReplayFinish);
    }
  }

  method RunScheduledAutonomy(history: H.RunHistory, x: Input) returns (outcome: Outcome)
    requires history.Valid()
    modifies history
    ensures history.Valid() && (history.View(), outcome) == Scheduled(old(history.View()), x)
  {
    if x.experiment.None? { return Inactive; }
    if x.experiment.value.disabled { return Disabled; }
    if !x.configured { return Rejected; }
    var disposition := SendClaim(history, x.OwnClaim(), x.claimSent);
    if disposition == Some(Busy) { return BusySlot; }
    if disposition == Some(Replay) { return Replayed; }
    if disposition != Some(Claimed) { return Rejected; }
    Serve(history, x.whileWorking);
    if x.work.Some? {
      var accepted := SendFinish(history, x.OwnComplete(), x.finishSent);
      if accepted { return Ran; }
    }
    Serve(history, x.beforeFail);
    var _ := SendFinish(history, x.OwnFail(), x.failSent);
    return Threw;
  }

  // ---- What the outcome means for the ledger ----

  lemma {:induction false} ApplyKeepsHeld(l: Ledger, rs: seq<Request>, runId: string)
    requires Sound(l) && Held(l, runId)
    ensures Held(Apply(l, rs), runId)
  {
    if rs != [] {
      var before := Apply(l, rs[..|rs| - 1]);
      ApplyKeepsHeld(l, rs[..|rs| - 1], runId);
      ApplyKeepsSound(l, rs[..|rs| - 1]);
      StepKeepsHeld(before, rs[|rs| - 1], runId);
    }
  }

  /** What everyone knows of the active run: it started at this run's own start. */
  ghost predicate ActiveSince(l: Ledger, runId: string, startedAt: int) {
    Held(l, runId) && (!Known(l.log, runId) ==> l.active.value.claim.startedAt == startedAt)
  }

  lemma {:induction false} ApplyKeepsActiveSince(l: Ledger, rs: seq<Request>, runId: string, startedAt: int)
    requires Sound(l) && ActiveSince(l, runId, startedAt)
    ensures ActiveSince(Apply(l, rs), runId, startedAt) && Sound(Apply(l, rs))
  {
    ApplyKeepsHeld(l, rs, runId);
    ApplyKeepsSound(l, rs);
    if rs != [] {
      var before := Apply(l, rs[..|rs| - 1]);
      ApplyKeepsActiveSince(l, rs[..|rs| - 1], runId, startedAt);
      StepKeepsSound(before, rs[|rs| - 1]);
      if Known(before.log, runId) {
        var k :| 0 <= k < |before.log| && before.log[k].runId == runId;
        assert Apply(l, rs).log[k].runId == runId;
      }
    }
  }

  /** A finish of a held run that the ledger accepts as well-formed leaves a terminal record behind. */
  lemma FinishClosesHeldRun(l: Ledger, f: Finish)
    requires Sound(l) && ActiveSince(l, f.runId, f.completedAt) && ValidFinish(f)
    ensures FinishStep(l, f).1 in {Appended, ReplayFinish} && Known(FinishStep(l, f).0.log, f.runId)
  {
    if !Known(l.log, f.runId) {
      assert FinishStep(l, f).0.log[|l.log|].runId == f.runId;
    }
  }

  lemma GrantIsActiveSince(l: Ledger, x: Input)
    requires Sound(l) && ClaimedSlot(l, x)
    ensures Sound(BeforeFinish(l, x)) && ActiveSince(BeforeFinish(l, x), x.RunId(), x.now)
    ensures ValidFinish(x.OwnFail())
  {
    ClaimKeepsSound(l, x.OwnClaim());
    ApplyKeepsActiveSince(ClaimStep(l, x.OwnClaim()).0, x.whileWorking, x.RunId(), x.now);
    assert |FAILED_CODE| == 19 && ValidCode(FAILED_CODE);
  }

  /**
   * A claimed run is never left open: whatever other clients do meanwhile, once the run has returned
   * "ran", or has thrown and its failure report was delivered, the ledger holds its terminal record.
   */
  lemma ClaimedRunIsRecorded(l: Ledger, x: Input)
    requires Sound(l) && ClaimedSlot(l, x)
    requires Scheduled(l, x).1 == Ran || !x.failSent.Dropped?
    ensures Known(Scheduled(l, x).0.log, x.RunId())
  {
    var before := BeforeFinish(l, x);
    GrantIsActiveSince(l, x);
    if FinishAccepted(l, x) {
      var f := x.OwnComplete();
      FinishClosesHeldRun(before, f);
    } else {
      var report := if x.work.Some? && !x.finishSent.Dropped? then [FinishRequest(x.OwnComplete())] else [];
      assert report != [] ==> Apply(before, report[..0]) == before;
      ApplyKeepsActiveSince(before, report, x.RunId(), x.now);
      var finished := Apply(before, report);
      ApplyKeepsActiveSince(finished, x.beforeFail, x.RunId(), x.now);
      FinishClosesHeldRun(Apply(finished, x.beforeFail), x.OwnFail());
    }
  }

  ghost predicate RecordedAs(l: Ledger, runId: string, status: Status) {
    exists k :: 0 <= k < |l.log| && l.log[k].runId == runId && l.log[k].status == status
  }

  /**
   * The request fails the run while it is active: a claim of the same experiment by a run that has not ended,
   * more than ten minutes after the start, or a valid failure report for the run itself.
   */
  ghost predicate FailsRun(l: Ledger, r: Request, runId: string, startedAt: int) {
    && l.active.Some? && l.active.value.claim.runId == runId
    && match r
       case ClaimRequest(c) =>
         && ValidClaim(c) && l.experiment == Some(c.experimentId) && !Known(l.log, c.runId)
         && c.startedAt - startedAt > STALE_RUN_MS
       case FinishRequest(f) => f.Fail? && ValidFinish(f) && f.runId == runId && f.completedAt >= startedAt
  }

  lemma StepRecordsFailure(l: Ledger, r: Request, runId: string, startedAt: int)
    requires Sound(l) && ActiveSince(l, runId, startedAt)
    ensures RecordedAs(Step(l, r), runId, Failed) <==> RecordedAs(l, runId, Failed) || FailsRun(l, r, runId, startedAt)
  {
    StepKeepsSound(l, r);
    var next := Step(l, r);
    if RecordedAs(l, runId, Failed) {
      var k :| 0 <= k < |l.log| && l.log[k].runId == runId && l.log[k].status == Failed;
      assert next.log[k] == l.log[k];
    } else if FailsRun(l, r, runId, startedAt) {
      assert next.log[|l.log|].runId == runId && next.log[|l.log|].status == Failed;
    }
  }

  ghost predicate FailsAt(l: Ledger, rs: seq<Request>, k: nat, runId: string, startedAt: int)
    requires k < |rs|
  {
    FailsRun(Apply(l, rs[..k]), rs[k], runId, startedAt)
  }

  /** Some request of other clients failed the run while it was active. */
  ghost predicate FailedMeanwhile(l: Ledger, rs: seq<Request>, runId: string, startedAt: int) {
    exists k :: 0 <= k < |rs| && FailsAt(l, rs, k, runId, startedAt)
  }

  lemma FailsAtPrefix(l: Ledger, rs: seq<Request>, n: nat, k: nat, runId: string, startedAt: int)
    requires k < n <= |rs|
    ensures FailsAt(l, rs[..n], k, runId, startedAt) <==> FailsAt(l, rs, k, runId, startedAt)
  {
    assert rs[..n][..k] == rs[..k];
  }

  lemma FailedMeanwhileNext(l: Ledger, rs: seq<Request>, runId: string, startedAt: int)
    requires rs != []
    ensures var n := |rs| - 1;
      FailedMeanwhile(l, rs, runId, startedAt) <==>
        FailedMeanwhile(l, rs[..n], runId, startedAt) || FailsAt(l, rs, n, runId, startedAt)
  {
    hide FailsAt;
    var n := |rs| - 1;
    forall k | 0 <= k < n
      ensures FailsAt(l, rs[..n], k, runId, startedAt) <==> FailsAt(l, rs, k, runId, startedAt)
    {
      FailsAtPrefix(l, rs, n, k, runId, startedAt);
    }
  }

  lemma {:induction false} FailureIsFromMeanwhile(l: Ledger, rs: seq<Request>, runId: string, startedAt: int)
    requires Sound(l) && ActiveSince(l, runId, startedAt) && !Known(l.log, runId)
    ensures RecordedAs(Apply(l, rs), runId, Failed) <==> FailedMeanwhile(l, rs, runId, startedAt)
  {
    if rs != [] {
      hide FailsRun, ActiveSince, Sound, Step;
      var init := rs[..|rs| - 1];
      FailureIsFromMeanwhile(l, init, runId, startedAt);
      ApplyKeepsActiveSince(l, init, runId, startedAt);
      StepRecordsFailure(Apply(l, init), rs[|rs| - 1], runId, startedAt);
      FailedMeanwhileNext(l, rs, runId, startedAt);
    }
  }

  /** A held run that reports completion is recorded from then on: as it was, or as completed. */
  lemma CompletionRecordsOnce(l: Ledger, f: Finish)
    requires Sound(l) && ActiveSince(l, f.runId, f.completedAt) && ValidFinish(f) && f.Complete?
    ensures var final := FinishStep(l, f).0;
      && (RecordedAs(final, f.runId, Completed) <==> !RecordedAs(final, f.runId, Failed))
      && (RecordedAs(final, f.runId, Failed) <==> RecordedAs(l, f.runId, Failed))
  {
    hide ValidFinish, ValidClaim;
    var final := FinishStep(l, f).0;
    if Known(l.log, f.runId) {
      var k :| 0 <= k < |l.log| && l.log[k].runId == f.runId;
      assert final == l && (l.log[k].status == Failed || l.log[k].status == Completed);
    } else {
      assert final.log[|l.log|].runId == f.runId && final.log[|l.log|].status == Completed;
    }
  }

  lemma RanReportsCompletion(l: Ledger, x: Input)
    requires ClaimedSlot(l, x) && Scheduled(l, x).1 == Ran
    ensures x.work.Some? && ValidFinish(x.OwnComplete())
    ensures Scheduled(l, x).0 == FinishStep(BeforeFinish(l, x), x.OwnComplete()).0
  {
  }

  /** A run that ended before it reported completion is recorded either way, and by that time only. */
  lemma RanIsRecordedOnce(l: Ledger, x: Input)
    requires Sound(l) && ClaimedSlot(l, x) && Scheduled(l, x).1 == Ran
    ensures RecordedAs(Scheduled(l, x).0, x.RunId(), Completed) <==> !RecordedAs(Scheduled(l, x).0, x.RunId(), Failed)
    ensures RecordedAs(Scheduled(l, x).0, x.RunId(), Failed) <==> RecordedAs(BeforeFinish(l, x), x.RunId(), Failed)
  {
    hide Sound, Scheduled, BeforeFinish, ActiveSince, RecordedAs, ValidFinish, ClaimStep;
    GrantIsActiveSince(l, x);
    RanReportsCompletion(l, x);
    CompletionRecordsOnce(BeforeFinish(l, x), x.OwnComplete());
  }

  lemma GrantIsNew(l: Ledger, x: Input)
    requires Sound(l) && ClaimedSlot(l, x)
    ensures var claimed := ClaimStep(l, x.OwnClaim()).0;
      Sound(claimed) && ActiveSince(claimed, x.RunId(), x.now) && !Known(claimed.log, x.RunId())
  {
    ClaimKeepsSound(l, x.OwnClaim());
  }

  /**
   * A run that returns "ran" is recorded as failed exactly if, while it worked, some other request failed it: a
   * claim of its experiment more than ten minutes after its start, or a failure report in its name. Otherwise it
   * is recorded as completed.
   */
  lemma RanMeansCompletedUnlessFailedMeanwhile(l: Ledger, x: Input)
    requires Sound(l) && ClaimedSlot(l, x) && Scheduled(l, x).1 == Ran
    ensures var failed := FailedMeanwhile(ClaimStep(l, x.OwnClaim()).0, x.whileWorking, x.RunId(), x.now);
      && (RecordedAs(Scheduled(l, x).0, x.RunId(), Failed) <==> failed)
      && (RecordedAs(Scheduled(l, x).0, x.RunId(), Completed) <==> !failed)
  {
    GrantIsNew(l, x);
    RanIsRecordedOnce(l, x);
    FailureIsFromMeanwhile(ClaimStep(l, x.OwnClaim()).0, x.whileWorking, x.RunId(), x.now);
  }

  /** The other case is real: a second claim eleven minutes on turns a run that returns "ran" into a failed one. */
  lemma RanCanBeRecordedAsFailed() returns (x: Input)
    ensures ClaimedSlot(EMPTY, x) && Scheduled(EMPTY, x).1 == Ran
    ensures RecordedAs(Scheduled(EMPTY, x).0, x.RunId(), Failed)
  {
    var e := Experiment("e", "a", "p", 3_600_000, false);
    var later := Claim("e:2", "e", "a", "p", 660_000, 3_600_000);
    x := Input(Some(e), true, 0, "1", Some(Work(None, None)), Answered, Answered, Answered,
               [ClaimRequest(later)], []);
    var own := x.OwnClaim();
    assert own.runId == "e:1" && ValidClaim(own) && ValidClaim(later);
    var claimed := ClaimStep(EMPTY, own).0;
    assert claimed == Ledger(Some("e"), [], Some(ActiveRun(own, 1)));
    assert Apply(claimed, x.whileWorking[..0]) == claimed;
    var before := BeforeFinish(EMPTY, x);
    assert before == ClaimStep(claimed, later).0;
    assert later.runId[2] != own.runId[2];
    assert before.log == [StaleRecord(ActiveRun(own, 1), 660_000)];
    assert before.log[0].runId == x.RunId();
    assert Known(before.log, x.RunId());
  }
}
