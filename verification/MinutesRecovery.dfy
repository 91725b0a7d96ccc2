/** Arming a delayed recovery of a run, and the recovery that marks an interrupted run as failed. */
module MinutesRecovery {
  import opened Options
  import opened MinutesRun
  import opened MinutesLog
  import opened MinutesStore
  import opened MinutesPipeline

  const DELAY_SECONDS := 20 * 60
  const SAVE_ATTEMPTS := 2
  const OUTCOME_NOT_PERSISTED := "meeting_minutes_recovery_outcome_persist_failed"

  datatype Armed = Armed(delaySeconds: int, terminal: bool)

  datatype Outcome = Recovered | Terminal | Superseded | NotDue

  function ArmedLifecycle(actionTs: string, now: int): Lifecycle {
    Lifecycle(actionTs, now + DELAY_SECONDS * 1000, false, false, false, None, false, false, false)
  }

  function Max(a: int, b: int): int {
    if a < b then b else a
  }

  /** `Math.max(1, Math.ceil((deadline - now) / 1000))`, in milliseconds of wall-clock time. */
  function DelayUntil(deadline: int, now: int): int {
    Max(1, (deadline - now + 999) / 1000)
  }

  /** The delay ends when the deadline has come, and no whole second later than needed. */
  lemma DelayReachesDeadline(deadline: int, now: int)
    ensures DelayUntil(deadline, now) >= 1
    ensures now + DelayUntil(deadline, now) * 1000 >= deadline
    ensures DelayUntil(deadline, now) > 1 ==> now + (DelayUntil(deadline, now) - 1) * 1000 < deadline
  {
  }

  predicate Touched(l: Lifecycle) {
    l.projected || l.claimed || l.attempted
  }

  // ---- Which changes to the lifecycle keep the record writable ----

  lemma MaySaveArm(h: History, r: Run, lifecycle: Lifecycle)
    requires MaySave(h, r) && r.revision <= h.current && h.Has(h.current)
    requires Durable(h).Action() != Some(lifecycle.actionTs)
    ensures MaySave(h, r.(lifecycle := Some(lifecycle)))
  {
  }

  lemma MaySaveLifecycle(h: History, r: Run, lifecycle: Lifecycle)
    requires MaySave(h, r) && r.revision <= h.current && r.lifecycle.Some?
    requires lifecycle.actionTs == r.lifecycle.value.actionTs
    requires r.lifecycle.value.claimed ==> lifecycle.claimed
    ensures MaySave(h, r.(lifecycle := Some(lifecycle)))
  {
  }

  lemma UnclaimedIsUntouched(h: History, r: Run)
    requires Coherent(h) && r == Durable(h) && r.lifecycle.Some? && !r.lifecycle.value.claimed
    ensures h.updates == 0 && h.fallbacks == 0
  {
  }

  lemma SaveKeepsCounts(h: History, r: Run)
    requires h.current in h.latest && r.Action() == Durable(h).Action()
    ensures var h' := After(h, Saved(r));
      h'.updates == h.updates && h'.fallbacks == h.fallbacks && h'.updateFailed == h.updateFailed
  {
  }

  lemma RecoveryEffectKeepsMaySave(h: History, e: Event, r: Run)
    requires MaySave(h, r) && (e.StatusUpdate? || e.StatusUpdateFailed? || e.Fallback?)
    requires h.updates == 0 || e.StatusUpdate? ==> r.lifecycle.Some? && r.lifecycle.value.claimed
    ensures MaySave(After(h, e), r) && After(h, e).current == h.current && After(h, e).latest == h.latest
    ensures After(h, e).updates == h.updates + (if e.StatusUpdate? then 1 else 0)
    ensures After(h, e).fallbacks == h.fallbacks + (if e.Fallback? then 1 else 0)
    ensures e.StatusUpdateFailed? ==> After(h, e).updateFailed
    ensures !e.StatusUpdateFailed? ==> After(h, e).updateFailed == h.updateFailed
  {
  }

  lemma UpdatePermitted(w: RunStore)
    requires w.Valid() && w.past.updates == 0 && w.past.fallbacks == 0
    requires w.durable.lifecycle.Some? && w.durable.lifecycle.value.claimed
    ensures Permitted(w.env, w.past, StatusUpdate)
  {
  }

  lemma FallbackPermitted(w: RunStore)
    requires w.Valid() && w.past.updates > 0 && w.past.fallbacks == 0 && w.past.updateFailed
    ensures Permitted(w.env, w.past, Fallback)
  {
  }

  lemma FailurePermitted(w: RunStore)
    requires w.Valid() && w.past.updates > 0
    ensures Permitted(w.env, w.past, StatusUpdateFailed)
  {
  }

  /** The recovery effects of the current arm, as the log has them. */
  ghost predicate Effects(w: RunStore, updates: nat, fallbacks: nat, failed: bool)
    reads w
  {
    && w.past.updates == updates && w.past.fallbacks == fallbacks && w.past.updateFailed == failed
    && w.durable.Action() == w.run.Action()
  }

  lemma SaveKeepsEffects(w: RunStore)
    requires w.Working() && w.durable.Action() == w.run.Action()
    ensures After(w.past, Saved(w.run)).updates == w.past.updates
    ensures After(w.past, Saved(w.run)).fallbacks == w.past.fallbacks
    ensures After(w.past, Saved(w.run)).updateFailed == w.past.updateFailed
  {
    SaveKeepsCounts(w.past, w.run);
  }

  /** A save that puts the run under no other arm leaves the effect counts alone. */
  method SaveSameArm(w: RunStore) returns (s: Signal)
    requires w.Working() && w.durable.Action() == w.run.Action()
    modifies w`durable, w`log, w`past
    ensures w.Working()
    ensures Effects(w, old(w.past.updates), old(w.past.fallbacks), old(w.past.updateFailed))
    ensures s == Done ==> w.durable == w.run
    ensures (w.durable == old(w.durable) && w.log == old(w.log))
         || (w.durable == w.run && w.log == old(w.log) + [Saved(w.run)])
  {
    hide MaySave, Coherent, After, LogOk, HistoryOf;
    SaveKeepsEffects(w);
    s := w.SaveRun();
  }

  method SetLifecycle(w: RunStore, lifecycle: Lifecycle)
    requires w.Working() && w.run.lifecycle.Some?
    requires lifecycle.actionTs == w.run.lifecycle.value.actionTs
    requires w.run.lifecycle.value.claimed ==> lifecycle.claimed
    modifies w`run
    ensures w.Working() && w.run == old(w.run).(lifecycle := Some(lifecycle))
  {
    hide MaySave, Coherent, LogOk, HistoryOf;
    MaySaveLifecycle(w.past, w.run, lifecycle);
    w.run := w.run.(lifecycle := Some(lifecycle));
  }

  // ---- Arming ----

  /**
   * Put the run under the arm of a selection, or find it armed. A run that is completed, or whose recovery
   * has begun, needs no message; any other gets a delay that ends at its deadline.
   */
  method Arm(w: RunStore, source: Source, actionTs: string, now: int) returns (s: Signal, armed: Armed)
    requires w.Valid()
    modifies w
    ensures w.Valid()
    ensures old(w.durable.status) == Completed || old(w.durable.Action()) == Some(actionTs) ==>
      w.durable == old(w.durable)
    ensures s == Done && old(w.durable.status) != Completed && old(w.durable.Action()) != Some(actionTs) ==>
      && w.durable == old(w.durable).(lifecycle := w.durable.lifecycle) && !armed.terminal
      && w.durable.lifecycle.Some? && !Touched(w.durable.lifecycle.value)
      && w.durable.lifecycle.value.deadlineAt == now + 1_200_000
    ensures s == Done ==> (armed.terminal <==>
      || w.durable.status == Completed
      || (w.durable.lifecycle.Some? && Touched(w.durable.lifecycle.value)))
    ensures s == Done && !armed.terminal ==>
      && w.durable.Action() == Some(actionTs) && armed.delaySeconds >= 1
      && now + armed.delaySeconds * 1000 >= w.durable.lifecycle.value.deadlineAt
  {
    hide MaySave, Coherent, LogOk, HistoryOf;
    armed := Armed(0, true);
    w.Load();
    if w.source != source { return Threw("meeting_minutes_recovery_boundary_mismatch"), armed; }
    if w.run.status == Completed { return Done, armed; }
    if w.run.Action() != Some(actionTs) {
      DurableIsKnown(w.past);
      MaySaveArm(w.past, w.run, ArmedLifecycle(actionTs, now));
      w.run := w.run.(lifecycle := Some(ArmedLifecycle(actionTs, now)));
      s := w.SaveRun();
      if s != Done { return; }
    }
    s := Done;
    var lifecycle := w.run.lifecycle.value;
    if Touched(lifecycle) { return; }
    DelayReachesDeadline(lifecycle.deadlineAt, now);
    armed := Armed(DelayUntil(lifecycle.deadlineAt, now), false);
  }

  lemma DurableIsKnown(h: History)
    requires Coherent(h)
    ensures h.Has(h.current)
  {
  }

  // ---- Recovering ----

  /** `saveRecoveryOutcome`: the result of the fallback, written with one bounded retry. */
  method SaveOutcome(w: RunStore) returns (s: Signal)
    requires w.Working() && w.run.lifecycle.Some? && w.durable.Action() == w.run.Action()
    modifies w
    ensures w.Working()
    ensures w.run == old(w.run).(lifecycle := Some(old(w.run.lifecycle.value).(outcomePersisted := true)))
    ensures Effects(w, old(w.past.updates), old(w.past.fallbacks), old(w.past.updateFailed))
    ensures s == Done ==> w.durable == w.run
    ensures w.durable == old(w.durable) || w.durable == w.run
  {
    hide MaySave, Coherent, LogOk, HistoryOf;
    SetLifecycle(w, w.run.lifecycle.value.(outcomePersisted := true));
    for attempt := 0 to SAVE_ATTEMPTS
      invariant w.Working() && w.run.lifecycle.Some?
      invariant w.run == old(w.run).(lifecycle := Some(old(w.run.lifecycle.value).(outcomePersisted := true)))
      invariant Effects(w, old(w.past.updates), old(w.past.fallbacks), old(w.past.updateFailed))
      invariant w.durable == old(w.durable) || w.durable == w.run
    {
      s := SaveSameArm(w);
      if s == Done || s == Crashed { return; }
    }
    s := Threw(OUTCOME_NOT_PERSISTED);
  }

  /** A redelivery after the status update was attempted: at most the bookkeeping write is completed. */
  method RetryClaimedOutcome(w: RunStore) returns (s: Signal, outcome: Outcome)
    requires w.Working() && w.run == w.durable && w.run.lifecycle.Some? && w.run.lifecycle.value.attempted
    modifies w
    ensures w.Working() && outcome == Terminal
    ensures Effects(w, old(w.past.updates), old(w.past.fallbacks), old(w.past.updateFailed))
    ensures w.durable == old(w.durable)
         || w.durable == old(w.durable).(lifecycle := Some(old(w.durable.lifecycle.value).(outcomePersisted := true)))
    ensures s == Done ==> w.durable.lifecycle.value.fallbackOutcome.Some? && w.durable.lifecycle.value.outcomePersisted
  {
    hide MaySave, Coherent, LogOk, HistoryOf;
    outcome := Terminal;
    if w.run.lifecycle.value.fallbackOutcome.None? {
      return Threw(OUTCOME_NOT_PERSISTED), outcome;
    }
    s := Done;
    if !w.run.lifecycle.value.outcomePersisted { s := SaveOutcome(w); }
  }

  /** The record of a run that was found unfinished: failed at the stage it had reached, unless it had failed. */
  ghost function Interrupted(r: Run): (failed: Run)
    ensures failed.status == Failed && (r.status == Failed ==> failed == r)
  {
    if r.status == Failed then r
    else r.(status := Failed, failure := Some(Failure(StatusName(r.status), "meeting_minutes_processing_interrupted")))
  }

  /** Mark the run failed and claim the projection, both durably, before anything is shown. */
  method ClaimProjection(w: RunStore) returns (s: Signal)
    requires w.Working() && w.run == w.durable && w.run.lifecycle.Some? && !Touched(w.run.lifecycle.value)
    requires !w.past.updateFailed
    modifies w
    ensures w.Working()
    ensures s == Done ==>
      && w.durable == w.run && Effects(w, 0, 0, false)
      && w.run == Interrupted(old(w.run)).(
           lifecycle := Some(old(w.run.lifecycle.value).(recovered := true, claimed := true)))
    ensures s != Done ==> w.past.updates == 0 && w.past.fallbacks == 0
  {
    hide MaySave, Coherent, After, LogOk, HistoryOf;
    UnclaimedIsUntouched(w.past, w.run);
    if w.run.status != Failed {
      var next := w.run.(status := Failed,
        failure := Some(Failure(StatusName(w.run.status), "meeting_minutes_processing_interrupted")));
      MaySaveUnguarded(w.past, w.run, next);
      w.run := next;
    }
    SetLifecycle(w, w.run.lifecycle.value.(recovered := true));
    s := SaveSameArm(w);
    if s != Done { return; }
    SetLifecycle(w, w.run.lifecycle.value.(claimed := true));
    s := SaveSameArm(w);
    if s.Threw? { s := Threw("meeting_minutes_recovery_projection_claim_save_failed"); }
  }

  /** Note a failed update on the record; the note itself may fail to be written. */
  method MarkAttempted(w: RunStore, message: string) returns (s: Signal)
    requires w.Working() && Effects(w, 1, 0, false)
    requires w.run.lifecycle.Some? && w.run.lifecycle.value.claimed
    modifies w
    ensures w.Working() && Effects(w, 1, 0, true)
    ensures w.run == old(w.run).(projectionFailure := Some(message),
                                 lifecycle := Some(old(w.run.lifecycle.value).(attempted := true)))
    ensures w.durable == old(w.durable) || w.durable == w.run
  {
    hide MaySave, Coherent, After, Permitted, LogOk, HistoryOf;
    FailurePermitted(w);
    RecoveryEffectKeepsMaySave(w.past, StatusUpdateFailed, w.run);
    w.Record(StatusUpdateFailed);
    MaySaveUnguarded(w.past, w.run, w.run.(projectionFailure := Some(message)));
    w.run := w.run.(projectionFailure := Some(message));
    SetLifecycle(w, w.run.lifecycle.value.(attempted := true));
    s := SaveSameArm(w);
  }

  method RunFallback(w: RunStore) returns (crashed: bool, shown: bool)
    requires w.Working() && Effects(w, 1, 0, true)
    requires w.run.lifecycle.Some? && w.run.lifecycle.value.claimed
    modifies w`log, w`past
    ensures w.Working() && Effects(w, 1, 1, true)
  {
    hide MaySave, Coherent, After, Permitted, LogOk, HistoryOf;
    FallbackPermitted(w);
    RecoveryEffectKeepsMaySave(w.past, Fallback, w.run);
    w.Record(Fallback);
    var reply: Reply<bool> := Ask();
    crashed, shown := reply.Crash?, reply.Answer?;
  }

  /** The outcome could not be written: a last attempt to say so on the record. */
  method MarkNotPersisted(w: RunStore) returns (s: Signal)
    requires w.Working() && w.run.lifecycle.Some? && w.durable.Action() == w.run.Action()
    modifies w
    ensures w.Working() && (s == Crashed || s == Threw(OUTCOME_NOT_PERSISTED))
    ensures Effects(w, old(w.past.updates), old(w.past.fallbacks), old(w.past.updateFailed))
    ensures w.durable.status == old(w.durable.status) || w.durable.status == old(w.run.status)
  {
    hide MaySave, Coherent, After, LogOk, HistoryOf;
    SetLifecycle(w, w.run.lifecycle.value.(persistenceFailed := true, outcomePersisted := false));
    s := SaveSameArm(w);
    s := if s == Crashed then Crashed else Threw(OUTCOME_NOT_PERSISTED);
  }

  /** Make the result of the fallback durable; if that fails, mark the record so with a last attempt. */
  method RecordOutcome(w: RunStore, shown: bool, message: string) returns (s: Signal)
    requires w.Working() && w.run.lifecycle.Some? && w.durable.Action() == w.run.Action()
    modifies w
    ensures w.Working() && s != Done
    ensures Effects(w, old(w.past.updates), old(w.past.fallbacks), old(w.past.updateFailed))
    ensures w.durable.status == old(w.durable.status) || w.durable.status == old(w.run.status)
    ensures s == Threw(message) && message != OUTCOME_NOT_PERSISTED ==>
      w.durable == old(w.run).(lifecycle := Some(old(w.run.lifecycle.value).(
        fallbackOutcome := Some(shown), projected := old(w.run.lifecycle.value.projected) || shown,
        outcomePersisted := true)))
  {
    hide MaySave, Coherent, After, LogOk, HistoryOf, Permitted;
    var lifecycle := w.run.lifecycle.value;
    SetLifecycle(w, lifecycle.(fallbackOutcome := Some(shown), projected := lifecycle.projected || shown));
    s := SaveOutcome(w);
    match s {
      case Crashed =>
      case Done => s := Threw(message);
      case Threw(_) => s := MarkNotPersisted(w);
    }
  }

  /**
   * A status update that failed: marker, one-shot fallback, and its outcome. The error of the update is
   * passed on only once the outcome is durable.
   */
  method HandleFailedUpdate(w: RunStore, message: string, hasFallback: bool) returns (s: Signal)
    requires w.Working() && Effects(w, 1, 0, false)
    requires w.run.lifecycle.Some? && w.run.lifecycle.value.claimed
    modifies w
    ensures w.Working() && s != Done
    ensures w.past.updates == 1 && w.past.fallbacks <= 1 && (!hasFallback ==> w.past.fallbacks == 0)
    ensures w.durable.status == old(w.durable.status) || w.durable.status == old(w.run.status)
    ensures s == Threw(message) && message != OUTCOME_NOT_PERSISTED ==>
      && w.durable.lifecycle.Some?
      && w.durable.lifecycle.value.attempted && w.durable.lifecycle.value.outcomePersisted
      && (w.durable.lifecycle.value.fallbackOutcome == Some(false)
          || (w.durable.lifecycle.value.fallbackOutcome == Some(true) && w.past.fallbacks == 1))
  {
    hide MaySave, Coherent, After, Permitted, LogOk, HistoryOf;
    s := MarkAttempted(w, message);
    if s == Crashed { return; }
    var crashed, shown := false, false;
    if hasFallback {
      crashed, shown := RunFallback(w);
      if crashed { return Crashed; }
    }
    s := RecordOutcome(w, shown, message);
  }

  /** Show the failed run, and fall back if that fails. */
  method ShowFailure(w: RunStore, hasFallback: bool) returns (s: Signal)
    requires w.Working() && w.durable == w.run && Effects(w, 0, 0, false)
    requires w.run.lifecycle.Some? && w.run.lifecycle.value.claimed && w.run.status == Failed
    modifies w
    ensures w.Working()
    ensures w.past.updates == 1 && w.past.fallbacks <= 1
    ensures s == Done ==>
      && w.durable == old(w.run).(lifecycle := Some(old(w.run.lifecycle.value).(projected := true)))
      && w.past.fallbacks == 0
  {
    hide MaySave, Coherent, After, Permitted, LogOk, HistoryOf;
    UpdatePermitted(w);
    RecoveryEffectKeepsMaySave(w.past, StatusUpdate, w.run);
    w.Record(StatusUpdate);
    var reply: Reply<bool> := Ask();
    match reply {
      case Crash => return Crashed;
      case Error(message) => s := HandleFailedUpdate(w, message, hasFallback);
      case Answer(_) =>
        SetLifecycle(w, w.run.lifecycle.value.(projected := true));
        s := SaveSameArm(w);
    }
  }

  lemma BeginKeepsCounts(h: History)
    ensures var h' := After(h, Begin);
      h'.updates == h.updates && h'.fallbacks == h.fallbacks && !h'.updateFailed
  {
  }

  /** What a delivery for `actionTs` at `now` must leave exactly as it is. */
  predicate LeftAlone(r: Run, actionTs: string, now: int) {
    || r.Action() != Some(actionTs)
    || (!r.lifecycle.value.attempted
        && (Touched(r.lifecycle.value) || r.status == Completed || r.lifecycle.value.deadlineAt > now))
  }

  function OutcomeLeftAlone(r: Run, actionTs: string): Outcome {
    if r.Action() != Some(actionTs) then Superseded
    else if Touched(r.lifecycle.value) || r.status == Completed then Terminal
    else NotDue
  }

  /**
   * One delivery of a recovery message. Other arms, completed runs, runs before their deadline and runs
   * whose projection is claimed are left as they are; a repeat after a failed update has no effect outside;
   * what is left is shown failed, once, under a durable claim.
   */
  method Recover(w: RunStore, actionTs: string, now: int, hasFallback: bool) returns (s: Signal, outcome: Outcome)
    requires w.Valid()
    modifies w
    ensures w.Valid()
    ensures LeftAlone(old(w.durable), actionTs, now) ==>
      && w.durable == old(w.durable) && w.log == old(w.log) + [Begin]
      && s == Done && outcome == OutcomeLeftAlone(old(w.durable), actionTs)
    ensures old(w.durable.status) == Completed ==>
      && w.durable.status == Completed
      && w.past.updates == old(w.past.updates) && w.past.fallbacks == old(w.past.fallbacks)
    ensures old(w.durable.Action()) == Some(actionTs) && old(w.durable.lifecycle.value.attempted) ==>
      w.past.updates == old(w.past.updates) && w.past.fallbacks == old(w.past.fallbacks)
    ensures s == Done && outcome == Recovered ==>
      && old(w.durable.Action()) == Some(actionTs)
      && w.durable == Interrupted(old(w.durable)).(lifecycle := Some(
           old(w.durable.lifecycle.value).(recovered := true, claimed := true, projected := true)))
  {
    hide MaySave, Coherent, After, LogOk, HistoryOf;
    outcome := Terminal;
    w.Load();
    BeginKeepsCounts(old(w.past));
    if w.run.Action() != Some(actionTs) { return Done, Superseded; }
    var lifecycle := w.run.lifecycle.value;
    if lifecycle.attempted {
      s, outcome := RetryClaimedOutcome(w);
      return;
    }
    if lifecycle.claimed { return Done, Terminal; }
    if w.run.status == Completed || lifecycle.projected { return Done, Terminal; }
    if lifecycle.deadlineAt > now { return Done, NotDue; }
    s := ClaimProjection(w);
    if s != Done { return; }
    s := ShowFailure(w, hasFallback);
    outcome := Recovered;
  }

  /** A message sent with the delay that arming returned finds the run due. */
  lemma ArmedMessageIsDue(r: Run, actionTs: string, now: int, at: int)
    requires r.Action() == Some(actionTs)
    requires at >= now + DelayUntil(r.lifecycle.value.deadlineAt, now) * 1000
    ensures LeftAlone(r, actionTs, at) ==> OutcomeLeftAlone(r, actionTs) == Terminal
  {
    DelayReachesDeadline(r.lifecycle.value.deadlineAt, now);
  }
}
