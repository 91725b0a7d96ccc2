/** Whole histories of the run ledger: any sequence of claim, complete and fail requests. */
module RunLedgerRuns {
  import opened Options
  import opened Tails
  import opened RunEvidence
  import opened RunLedger

  datatype Request = ClaimRequest(claim: Claim) | FinishRequest(finish: Finish)

  ghost function Step(l: Ledger, r: Request): Ledger {
    match r
    case ClaimRequest(c) => ClaimStep(l, c).0
    case FinishRequest(f) => FinishStep(l, f).0
  }

  ghost function Apply(l: Ledger, rs: seq<Request>): Ledger {
    if rs == [] then l else Step(Apply(l, rs[..|rs| - 1]), rs[|rs| - 1])
  }

  /** The ledger that a sequence of requests builds from empty storage. */
  ghost function After(rs: seq<Request>): Ledger {
    Apply(EMPTY, rs)
  }

  ghost predicate Granted(rs: seq<Request>, i: nat)
    requires i < |rs|
  {
    rs[i].ClaimRequest? && ClaimStep(After(rs[..i]), rs[i].claim).1 == Claimed
  }

  // ---- Every reachable ledger is sound, and its log only grows ----

  lemma StepKeepsSound(l: Ledger, r: Request)
    requires Sound(l)
    ensures Sound(Step(l, r)) && l.log <= Step(l, r).log
  {
    match r
    case ClaimRequest(c) => ClaimKeepsSound(l, c);
    case FinishRequest(f) => FinishKeepsSound(l, f);
  }

  lemma {:induction false} ApplyKeepsSound(l: Ledger, rs: seq<Request>)
    requires Sound(l)
    ensures Sound(Apply(l, rs)) && l.log <= Apply(l, rs).log
  {
    if rs != [] {
      ApplyKeepsSound(l, rs[..|rs| - 1]);
      StepKeepsSound(Apply(l, rs[..|rs| - 1]), rs[|rs| - 1]);
    }
  }

  lemma {:induction false} ApplyOfConcat(l: Ledger, a: seq<Request>, b: seq<Request>)
    ensures Apply(l, a + b) == Apply(Apply(l, a), b)
  {
    if b == [] {
      assert a + b == a;
    } else {
      ApplyOfConcat(l, a, b[..|b| - 1]);
      assert (a + b)[..|a + b| - 1] == a + b[..|b| - 1];
    }
  }

  /** A terminal record, once written, stays where it is and never changes. */
  lemma TerminalRecordsAreFinal(rs: seq<Request>, i: nat)
    requires i <= |rs|
    ensures After(rs[..i]).log <= After(rs).log
  {
    ApplyKeepsSound(EMPTY, rs[..i]);
    ApplyKeepsSound(After(rs[..i]), rs[i..]);
    ApplyOfConcat(EMPTY, rs[..i], rs[i..]);
    assert rs[..i] + rs[i..] == rs;
  }

  /** Finishing a run that has a terminal record, however late, changes nothing. */
  lemma LateFinishIsIgnored(rs: seq<Request>, i: nat, f: Finish)
    requires i <= |rs| && Known(After(rs[..i]).log, f.runId)
    ensures FinishStep(After(rs), f).0 == After(rs)
    ensures FinishStep(After(rs), f).1 in {InvalidFinish, ReplayFinish}
  {
    TerminalRecordsAreFinal(rs, i);
    var k :| 0 <= k < |After(rs[..i]).log| && After(rs[..i]).log[k].runId == f.runId;
    assert After(rs).log[k].runId == f.runId;
  }

  // ---- The checkpoint and the recent window tile all terminal runs ----

  lemma {:induction false} CountsAddUp(log: seq<TerminalRecord>)
    ensures CountStatus(log, Completed) + CountStatus(log, Failed) == |log|
  {
    if log != [] {
      CountsAddUp(log[..|log| - 1]);
    }
  }

  lemma ProjectionTilesAllRuns(rs: seq<Request>)
    ensures var l := After(rs);
      var n, window, summary := |l.log|, Last(l.log, RECENT_RUN_LIMIT), Summary(Evicted(l.log));
      && (forall i :: 0 <= i < |window| ==> window[i].sequence == n - |window| + i + 1)
      && (summary.None? <==> n <= RECENT_RUN_LIMIT)
      && (summary.Some? ==>
            && |window| == RECENT_RUN_LIMIT
            && summary.value.compactedRunCount == n - RECENT_RUN_LIMIT
            && summary.value.completedRuns + summary.value.failedRuns == n - RECENT_RUN_LIMIT
            && summary.value.firstSequence == 1 && summary.value.lastSequence == n - RECENT_RUN_LIMIT
            && summary.value.runIds == Last(Ids(Evicted(l.log)), CHECKPOINT_REFERENCE_LIMIT)
            && summary.value.evidence == Newest(AllEvidence(Evicted(l.log))))
      && (l.active.Some? ==> l.active.value.sequence == n + 1)
  {
    var log := After(rs).log;
    ApplyKeepsSound(EMPTY, rs);
    CountsAddUp(Evicted(log));
    var window := Last(log, RECENT_RUN_LIMIT);
    forall i | 0 <= i < |window| ensures window[i] == log[|log| - |window| + i] {
    }
  }

  // ---- Claims ----

  /** The run has been granted before: it is active or has ended. */
  ghost predicate Held(l: Ledger, runId: string) {
    Known(l.log, runId) || (l.active.Some? && l.active.value.claim.runId == runId)
  }

  lemma StepKeepsHeld(l: Ledger, r: Request, runId: string)
    requires Sound(l) && Held(l, runId)
    ensures Held(Step(l, r), runId)
  {
    var next := Step(l, r);
    StepKeepsSound(l, r);
    if Known(l.log, runId) {
      var i :| 0 <= i < |l.log| && l.log[i].runId == runId;
      assert next.log[i].runId == runId;
    } else if next.log != l.log {
      assert next.log[|l.log|].runId == runId;
    }
  }

  lemma {:induction false} HeldForever(rs: seq<Request>, i: nat, runId: string)
    requires i <= |rs| && Held(After(rs[..i]), runId)
    ensures Held(After(rs), runId)
    decreases |rs| - i
  {
    if i == |rs| {
      assert rs[..i] == rs;
    } else {
      assert rs[..i + 1][..i] == rs[..i];
      ApplyKeepsSound(EMPTY, rs[..i]);
      StepKeepsHeld(After(rs[..i]), rs[i], runId);
      HeldForever(rs, i + 1, runId);
    }
  }

  /** Over any history, a run id is granted at most once. */
  lemma GrantedAtMostOnce(rs: seq<Request>, i: nat, j: nat)
    requires i < j < |rs| && Granted(rs, i) && rs[j].ClaimRequest?
    requires rs[j].claim.runId == rs[i].claim.runId
    ensures !Granted(rs, j)
  {
    var runId := rs[i].claim.runId;
    assert rs[..i + 1][..i] == rs[..i];
    assert Held(After(rs[..i + 1]), runId);
    assert rs[..j][..i + 1] == rs[..i + 1];
    HeldForever(rs[..j], i + 1, runId);
  }

  ghost function Grants(rs: seq<Request>): nat {
    if rs == [] then 0
    else Grants(rs[..|rs| - 1]) + if Granted(rs, |rs| - 1) then 1 else 0
  }

  /** Nothing is lost: every grant is the active run or has exactly one terminal record. */
  lemma {:induction false} EveryGrantIsAccountedFor(rs: seq<Request>)
    ensures Grants(rs) == |After(rs).log| + if After(rs).active.Some? then 1 else 0
  {
    if rs != [] {
      EveryGrantIsAccountedFor(rs[..|rs| - 1]);
    }
  }

  /** The request ends the active run `a`: by its own report, or by a claim more than ten minutes after its start. */
  ghost predicate Ends(l: Ledger, r: Request, a: ActiveRun) {
    && l.active == Some(a)
    && match r
       case FinishRequest(f) =>
         && f.runId == a.claim.runId && a.claim.startedAt <= f.completedAt
         && Step(l, r).active.None? && Step(l, r).log == l.log + [FinishRecord(a, f)]
       case ClaimRequest(c) =>
         && c.startedAt - a.claim.startedAt > STALE_RUN_MS
         && Step(l, r).log == l.log + [StaleRecord(a, c.startedAt)]
  }

  lemma SlotIsFreedByEnd(l: Ledger, r: Request, a: ActiveRun)
    requires Sound(l) && l.active == Some(a)
    ensures Step(l, r).active != Some(a) <==> Ends(l, r, a)
  {
    StepKeepsSound(l, r);
    if Ends(l, r, a) { EndedIsKnown(l, r, a); }
  }

  lemma EndedIsKnown(l: Ledger, r: Request, a: ActiveRun)
    requires Ends(l, r, a)
    ensures Known(Step(l, r).log, a.claim.runId)
  {
    assert Step(l, r).log[|l.log|].runId == a.claim.runId;
  }

  lemma KnownStays(rs: seq<Request>, i: nat, runId: string)
    requires i <= |rs| && Known(After(rs[..i]).log, runId)
    ensures Known(After(rs).log, runId)
  {
    TerminalRecordsAreFinal(rs, i);
    var k :| 0 <= k < |After(rs[..i]).log| && After(rs[..i]).log[k].runId == runId;
    assert After(rs).log[k].runId == runId;
  }

  /**
   * Over any history: a run that held the slot after `i` requests holds it no longer after `j` exactly if some
   * request in between was its own end, or a claim that started more than ten minutes after it; and each of
   * these writes that run's record.
   */
  lemma SlotIsFreedOnlyByEndOrStaleness(rs: seq<Request>, i: nat, j: nat, a: ActiveRun)
    requires i <= j <= |rs| && After(rs[..i]).active == Some(a)
    ensures After(rs[..j]).active != Some(a) <==> exists k :: i <= k < j && Ends(After(rs[..k]), rs[k], a)
  {
    if k :| i <= k < j && Ends(After(rs[..k]), rs[k], a) {
      EndedNeverReturns(rs, k, j, a);
    } else {
      HoldsUntilEnded(rs, i, j, a);
    }
  }

  lemma EndedNeverReturns(rs: seq<Request>, k: nat, j: nat, a: ActiveRun)
    requires k < j <= |rs| && Ends(After(rs[..k]), rs[k], a)
    ensures After(rs[..j]).active != Some(a)
  {
    EndedIsKnown(After(rs[..k]), rs[k], a);
    assert rs[..k + 1][..k] == rs[..k];
    assert rs[..j][..k + 1] == rs[..k + 1];
    KnownStays(rs[..j], k + 1, a.claim.runId);
    ApplyKeepsSound(EMPTY, rs[..j]);
  }

  lemma {:induction false} HoldsUntilEnded(rs: seq<Request>, i: nat, j: nat, a: ActiveRun)
    requires i <= j <= |rs| && After(rs[..i]).active == Some(a)
    requires forall k :: i <= k < j ==> !Ends(After(rs[..k]), rs[k], a)
    ensures After(rs[..j]).active == Some(a)
    decreases j
  {
    if i < j {
      HoldsUntilEnded(rs, i, j - 1, a);
      ApplyKeepsSound(EMPTY, rs[..j - 1]);
      SlotIsFreedByEnd(After(rs[..j - 1]), rs[j - 1], a);
      assert rs[..j][..j - 1] == rs[..j - 1];
    }
  }
}
