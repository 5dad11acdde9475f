/**
 How a stored attempt advances: a settled outcome is final until retention
 removes the attempt, so a settlement replayed later changes nothing unless a
 begin has admitted the same id anew; and a job-pending report decides whether
 the settlement that follows it can still charge.
 */
module AdmissionReplay {
  import opened Basics
  import opened AdmissionModel
  import opened AdmissionInvariant
  import opened AdmissionSafety
  import opened AdmissionLedger

  predicate Open(state: AttemptState) { state == DispatchIntent || state == Accepted }
  predicate Final(state: AttemptState) { state == Settled || state == NotExecuted || state == OutcomeUnknown }

  /** Nothing has been reported or charged. */
  predicate Pristine(env: Envelope) { env.chargedCost == 0 && !env.chargedCostKnown && env.outcome.None? }

  /** What any step may do to a stored attempt. */
  ghost predicate RowAdvances(before: Row, after: Row) {
    || after == before
    || (Open(before.state) && (Open(after.state) && Pristine(before.env) ==> Pristine(after.env)))
    || (before.state == JobPending && Final(after.state))
    || (Final(before.state) && after.state == before.state)
  }

  /** Attempts stay what they were or advance; only settled ones leave, and new ones start open. */
  ghost predicate Advances(s: State, s': State) {
    && (forall id | id in s.attempts && id in s'.attempts :: RowAdvances(s.attempts[id], s'.attempts[id]))
    && (forall id | id in s'.attempts && id !in s.attempts ::
          s'.attempts[id].state == DispatchIntent && Pristine(s'.attempts[id].env))
  }

  lemma AdvancesTransitive(a: State, b: State, c: State)
    requires Advances(a, b) && Advances(b, c) && c.attempts.Keys <= b.attempts.Keys <= a.attempts.Keys
    ensures Advances(a, c)
  {
    forall id | id in c.attempts ensures RowAdvances(a.attempts[id], c.attempts[id]) {
      assert RowAdvances(a.attempts[id], b.attempts[id]) && RowAdvances(b.attempts[id], c.attempts[id]);
    }
  }

  lemma BeginAdvances(s: State, p: Plan, clock: Clock, scan: seq<Key>, approved: bool)
    requires WellFormed(s) && Conserved(s)
    ensures Advances(s, Begin(s, p, clock, scan, approved).0)
  {
    hide Begin, WellFormed, Conserved, SeenRequest, EntryReserved;
    BeginRows(s, p, clock, scan, approved);
    if Begin(s, p, clock, scan, approved).0.attempts != s.attempts {
      AdmittedEntries(s, p, clock, scan, approved);
    }
  }

  lemma AcceptAdvances(s: State, permit: Permit, evidence: string, now: int)
    requires WellFormed(s)
    ensures Advances(s, Accept(s, permit, evidence, now).0)
  {
    hide Accept;
    if Accept(s, permit, evidence, now).0 != s { AcceptRow(s, permit, evidence, now); }
  }

  lemma FinalizeAdvances(s: State, o: Report, now: int)
    requires WellFormed(s)
    ensures Advances(s, Finalize(s, o, now).0)
  {
    hide Finalize, Decide, WellFormed, Load;
    if Finalize(s, o, now).0 != s {
      FinalizeRow(s, o, now);
      DecisionAdvances(Load(s.attempts[AttemptId(o.tenant, o.attempt)].env), RequestedState(o.state).value, o);
    }
  }

  lemma DecisionAdvances(env: Envelope, next: AttemptState, o: Report)
    requires !Open(next)
    ensures var t := Decide(env, next, o).next; Final(t) || (t == JobPending == next)
  {
  }

  lemma ReconcileAdvances(s: State, tenant: string, authorized: bool, admission: string, expected: int,
                          body: Reconciliation, now: int)
    requires WellFormed(s)
    ensures Advances(s, Reconcile(s, tenant, authorized, admission, expected, body, now).0)
  {
    hide Reconcile, WellFormed, CheckReconciliation, DecideCharge, NormalizeUsage, EvidenceTokens, Load;
    if Reconcile(s, tenant, authorized, admission, expected, body, now).0 != s {
      ReconcileRow(s, tenant, authorized, admission, expected, body, now);
    }
  }

  lemma SweepOneAdvances(s: State, id: AttemptId, now: int)
    requires SweepOne(s, id, now).Ok?
    ensures var s' := SweepOne(s, id, now).value; Advances(s, s') && s'.attempts.Keys == s.attempts.Keys
  {
    hide MoveHolds, ReleaseTargets;
  }

  lemma {:induction false} SweepAdvances(s: State, due: seq<AttemptId>, now: int)
    requires SweepFrom(s, due, now).Ok?
    ensures var s' := SweepFrom(s, due, now).value; Advances(s, s') && s'.attempts.Keys == s.attempts.Keys
    decreases |due|
  {
    if due != [] {
      var s1 := SweepOne(s, due[0], now).value;
      SweepOneAdvances(s, due[0], now);
      hide SweepOne, Advances;
      SweepAdvances(s1, due[1..], now);
      AdvancesTransitive(s, s1, SweepFrom(s, due, now).value);
    }
  }

  lemma MaintainAdvances(s: State, now: int, due: seq<AttemptId>, settled: seq<AttemptId>, effects: seq<EffectId>)
    ensures Advances(s, Maintain(s, now, due, settled, effects).0)
  {
    var swept := SweepFrom(s, due, now);
    if swept.Ok? {
      SweepAdvances(s, due, now);
      PurgeRows(swept.value, settled, now);
      var purged := PurgeFrom(swept.value, settled, now);
      ExpireKeepsAccounting(purged, effects, now);
      AdvancesTransitive(s, swept.value, purged);
    }
  }

  lemma StepAdvances(s: State, step: Step)
    requires WellFormed(s) && Conserved(s)
    ensures Advances(s, Apply(s, step))
  {
    hide Begin, Accept, Finalize, Reconcile, Maintain, Advances, WellFormed, Conserved;
    match step {
      case DoBegin(plan, clock, scan, approved) => BeginAdvances(s, plan, clock, scan, approved);
      case DoAccept(permit, evidence, now) => AcceptAdvances(s, permit, evidence, now);
      case DoFinalize(o, now) => FinalizeAdvances(s, o, now);
      case DoReconcile(tenant, authorized, admission, expected, body, now) =>
        ReconcileAdvances(s, tenant, authorized, admission, expected, body, now);
      case DoMaintain(now, due, settled, effects) => MaintainAdvances(s, now, due, settled, effects);
      case DoConfigure(limits, windows, models, config, counters) =>
        ConfigureAdvances(s, limits, windows, models, config, counters);
    }
  }

  lemma ConfigureAdvances(s: State, limits: map<Key, Limit>, windows: map<WindowKey, Window>,
                          models: map<ModelKey, Model>, config: int, counters: set<Key>)
    ensures Advances(s, Configure(s, limits, windows, models, config, counters))
  {
  }

  // ------------------------------------------------------------------- replays

  /** A step that admits an id that is not stored, for the first time or after a purge. */
  ghost predicate Readmits(s: State, step: Step, id: AttemptId) {
    id !in s.attempts && id in Apply(s, step).attempts
  }

  ghost predicate Readmitted(s: State, steps: seq<Step>, id: AttemptId)
    decreases |steps|
  {
    steps != [] &&
    (Readmitted(s, steps[..|steps| - 1], id) || Readmits(Run(s, steps[..|steps| - 1]), steps[|steps| - 1], id))
  }

  /** The attempt is gone, or in a state from which a report of `next` does not proceed. */
  ghost predicate Closed(s: State, id: AttemptId, next: AttemptState) {
    id !in s.attempts || Final(s.attempts[id].state) || (s.attempts[id].state == JobPending == next)
  }

  lemma FinalizeCloses(s: State, o: Report, now: int)
    requires WellFormed(s) && Finalize(s, o, now).1.None?
    ensures RequestedState(o.state).Some?
    ensures Closed(Finalize(s, o, now).0, AttemptId(o.tenant, o.attempt), RequestedState(o.state).value)
  {
    hide WellFormed, Load, Decide, MoveHolds, SettledTargets;
    DecisionAdvances(Load(s.attempts[AttemptId(o.tenant, o.attempt)].env), RequestedState(o.state).value, o);
  }

  lemma ClosedReplays(s: State, o: Report, now: int)
    requires RequestedState(o.state).Some? && Closed(s, AttemptId(o.tenant, o.attempt), RequestedState(o.state).value)
    ensures Finalize(s, o, now).0 == s
  {
  }

  lemma StepKeepsClosed(s: State, step: Step, id: AttemptId, next: AttemptState)
    requires WellFormed(s) && Conserved(s) && Closed(s, id, next) && !Readmits(s, step, id)
    ensures Closed(Apply(s, step), id, next)
  {
    hide Apply, WellFormed, Conserved;
    StepAdvances(s, step);
    assert id in s.attempts && id in Apply(s, step).attempts
           ==> RowAdvances(s.attempts[id], Apply(s, step).attempts[id]);
  }

  lemma {:induction false} RunJoin(s: State, a: seq<Step>, b: seq<Step>)
    ensures Run(s, a + b) == Run(Run(s, a), b)
    decreases |b|
  {
    hide Apply;
    if b == [] {
      assert a + b == a;
    } else {
      var n := |b| - 1;
      assert (a + b)[..|a| + n] == a + b[..n];
      RunJoin(s, a, b[..n]);
    }
  }

  lemma {:induction false} RunKeepsClosed(s: State, steps: seq<Step>, id: AttemptId, next: AttemptState)
    requires WellFormed(s) && Conserved(s) && Closed(s, id, next) && !Readmitted(s, steps, id)
    ensures WellFormed(Run(s, steps)) && Conserved(Run(s, steps)) && Closed(Run(s, steps), id, next)
    decreases |steps|
  {
    hide WellFormed, Conserved, Closed, Apply, Readmits;
    if steps != [] {
      RunKeepsClosed(s, steps[..|steps| - 1], id, next);
      StepConserves(Run(s, steps[..|steps| - 1]), steps[|steps| - 1]);
      StepKeepsClosed(Run(s, steps[..|steps| - 1]), steps[|steps| - 1], id, next);
    }
  }

  /**
   A settlement is final: however the run continues, the same report changes
   nothing, unless a begin admits the purged id anew.
   */
  lemma FinalizeReplays(s0: State, before: seq<Step>, o: Report, now: int, after: seq<Step>, later: int)
    requires Initial(s0) && Finalize(Run(s0, before), o, now).1.None?
    requires !Readmitted(Run(s0, before + [DoFinalize(o, now)]), after, AttemptId(o.tenant, o.attempt))
    ensures var s := Run(s0, before + [DoFinalize(o, now)] + after);
            Finalize(s, o, later).0 == s
  {
    hide Finalize, WellFormed, Conserved, Closed;
    SettledRunCloses(s0, before, o, now, after);
    ClosedReplays(Run(s0, before + [DoFinalize(o, now)] + after), o, later);
  }

  lemma SettledRunCloses(s0: State, before: seq<Step>, o: Report, now: int, after: seq<Step>)
    requires Initial(s0) && Finalize(Run(s0, before), o, now).1.None?
    requires !Readmitted(Run(s0, before + [DoFinalize(o, now)]), after, AttemptId(o.tenant, o.attempt))
    ensures var s := Run(s0, before + [DoFinalize(o, now)] + after);
            && WellFormed(s) && Conserved(s) && RequestedState(o.state).Some?
            && Closed(s, AttemptId(o.tenant, o.attempt), RequestedState(o.state).value)
  {
    hide Finalize, WellFormed, Conserved, Closed, Initial, RequestedState;
    var first := before + [DoFinalize(o, now)];
    RunConserves(s0, before);
    RunConserves(s0, first);
    assert first[..|before|] == before;
    FinalizeCloses(Run(s0, before), o, now);
    RunKeepsClosed(Run(s0, first), after, AttemptId(o.tenant, o.attempt), RequestedState(o.state).value);
    RunJoin(s0, first, after);
  }

  /**
   The exact exception: after one more step, an accepted repeat of the report
   settles anew exactly when that step admitted the id again.
   */
  lemma ReplaySettlesExactly(s0: State, before: seq<Step>, o: Report, now: int, after: seq<Step>, step: Step,
                             later: int)
    requires Initial(s0) && Finalize(Run(s0, before), o, now).1.None?
    requires !Readmitted(Run(s0, before + [DoFinalize(o, now)]), after, AttemptId(o.tenant, o.attempt))
    requires Finalize(Apply(Run(s0, before + [DoFinalize(o, now)] + after), step), o, later).1.None?
    ensures var s := Run(s0, before + [DoFinalize(o, now)] + after);
            (Finalize(Apply(s, step), o, later).0 != Apply(s, step)
             <==> Readmits(s, step, AttemptId(o.tenant, o.attempt)))
  {
    hide Finalize, WellFormed, Conserved, Closed, Apply, Advances, Pristine;
    SettledRunCloses(s0, before, o, now, after);
    var s := Run(s0, before + [DoFinalize(o, now)] + after);
    var id := AttemptId(o.tenant, o.attempt);
    if Readmits(s, step, id) {
      NewIsOpen(s, step, id);
      OpenSettles(Apply(s, step), o, later);
    } else {
      StepKeepsClosed(s, step, id, RequestedState(o.state).value);
      ClosedReplays(Apply(s, step), o, later);
    }
  }

  lemma NewIsOpen(s: State, step: Step, id: AttemptId)
    requires WellFormed(s) && Conserved(s) && Readmits(s, step, id)
    ensures Apply(s, step).attempts[id].state == DispatchIntent
  {
    hide Apply, WellFormed, Conserved;
    StepAdvances(s, step);
  }

  lemma OpenSettles(s: State, o: Report, now: int)
    requires var id := AttemptId(o.tenant, o.attempt); id in s.attempts && s.attempts[id].state == DispatchIntent
    requires Finalize(s, o, now).1.None?
    ensures Finalize(s, o, now).0 != s
  {
    hide Decide, MoveHolds, SettledTargets, Load;
    var id := AttemptId(o.tenant, o.attempt);
    DecisionAdvances(Load(s.attempts[id].env), RequestedState(o.state).value, o);
    assert Finalize(s, o, now).0.attempts[id].state != DispatchIntent;
  }

  // -------------------------------------------------- charges after a pending job

  ghost predicate Orderly(s: State) {
    forall id | id in s.attempts && Open(s.attempts[id].state) :: Pristine(s.attempts[id].env)
  }

  lemma StepKeepsOrderly(s: State, step: Step)
    requires WellFormed(s) && Conserved(s) && Orderly(s)
    ensures Orderly(Apply(s, step))
  {
    hide Apply, WellFormed, Conserved, Pristine;
    StepAdvances(s, step);
    var s' := Apply(s, step);
    forall id | id in s'.attempts && Open(s'.attempts[id].state) ensures Pristine(s'.attempts[id].env) {
      assert id in s.attempts ==> RowAdvances(s.attempts[id], s'.attempts[id]);
    }
  }

  /** In every run, open attempts have neither outcome nor charge. */
  lemma {:induction false} RunIsOrderly(s: State, steps: seq<Step>)
    requires Initial(s)
    ensures Orderly(Run(s, steps))
    decreases |steps|
  {
    hide Apply, Orderly;
    if steps == [] {
      InitialIsOrderly(s);
    } else {
      RunConserves(s, steps[..|steps| - 1]);
      RunIsOrderly(s, steps[..|steps| - 1]);
      StepKeepsOrderly(Run(s, steps[..|steps| - 1]), steps[|steps| - 1]);
    }
  }

  lemma InitialIsOrderly(s: State)
    requires Initial(s)
    ensures Orderly(s)
  {
  }

  /** The report carries a cost that settlement does not discard. */
  predicate UsableCost(o: Report) { o.actualCost.Some? && o.actualCost.value >= 0 }

  /**
   A job-pending report leaves the attempt uncharged, and chargeable exactly when
   it carries no usable cost.
   */
  lemma PendingStaysChargeable(s: State, o: Report, now: int)
    requires WellFormed(s) && Orderly(s) && Finalize(s, o, now).0 != s && o.state == Named(JobPending)
    ensures var row := Finalize(s, o, now).0.attempts[AttemptId(o.tenant, o.attempt)];
            && row.state == JobPending && row.env.chargedCost == 0
            && (Load(row.env).chargedCostKnown <==> UsableCost(o))
  {
    hide Finalize, Decide, WellFormed;
    FinalizeRow(s, o, now);
    FinalizeRecords(s, o, now);
    var id := AttemptId(o.tenant, o.attempt);
    DecisionShape(Load(s.attempts[id].env), JobPending, o);
    PendingDecision(Load(s.attempts[id].env), o);
  }

  /** The cost that a report settles an executed attempt at, where it is known. */
  ghost function SettledCost(env: Envelope, o: Report): Option<Int64> {
    if RequestedState(o.state).None? then None
    else var t := Decide(Load(env), RequestedState(o.state).value, o); if Executed(t.next) then t.actualCost else None
  }

  /** A known cost is charged exactly when no cost was known before, and recorded when its ledger id is also free. */
  lemma KnownCostCharges(s: State, o: Report, now: int)
    requires WellFormed(s) && Finalize(s, o, now).0 != s
    requires var env := s.attempts[AttemptId(o.tenant, o.attempt)].env;
             env.chargedCost == 0 && SettledCost(env, o).Some? && SettledCost(env, o).value != 0
    ensures var id := AttemptId(o.tenant, o.attempt);
            var s' := Finalize(s, o, now).0;
            var cost := SettledCost(s.attempts[id].env, o).value;
            var known := Load(s.attempts[id].env).chargedCostKnown;
            && (s'.attempts[id].env.chargedCost == cost <==> !known)
            && (LedgerTotal(s', id) - LedgerTotal(s, id) == cost
                <==> !known && EffectId(id.tenant, id.attempt + CHARGE_SUFFIX) !in s.ledger)
  {
    hide Finalize, Decide, WellFormed, LedgerTotal;
    FinalizeRow(s, o, now);
    FinalizeRecords(s, o, now);
    var id := AttemptId(o.tenant, o.attempt);
    var s' := Finalize(s, o, now).0;
    var env := Load(s.attempts[id].env);
    LoadAgain(s.attempts[id].env);
    DecisionShape(env, RequestedState(o.state).value, o);
    var effect := ChargeEffect(id, SettledCost(s.attempts[id].env, o).value, now);
    if !env.chargedCostKnown && effect.id !in s.ledger {
      RecordedTotal(s, s', effect, id);
    } else {
      SameLedger(s, s', id);
    }
  }

  /** The pending row is still stored as it was, or has been settled, or is gone. */
  ghost predicate Waiting(s: State, id: AttemptId, row: Row) {
    id !in s.attempts || s.attempts[id] == row || Final(s.attempts[id].state)
  }

  lemma StepKeepsWaiting(s: State, step: Step, id: AttemptId, row: Row)
    requires WellFormed(s) && Conserved(s) && row.state == JobPending && Waiting(s, id, row) && !Readmits(s, step, id)
    ensures Waiting(Apply(s, step), id, row)
  {
    hide Apply, WellFormed, Conserved;
    StepAdvances(s, step);
    assert id in s.attempts && id in Apply(s, step).attempts
           ==> RowAdvances(s.attempts[id], Apply(s, step).attempts[id]);
  }

  lemma {:induction false} RunKeepsWaiting(s: State, steps: seq<Step>, id: AttemptId, row: Row)
    requires WellFormed(s) && Conserved(s) && row.state == JobPending && Waiting(s, id, row)
             && !Readmitted(s, steps, id)
    ensures WellFormed(Run(s, steps)) && Conserved(Run(s, steps)) && Waiting(Run(s, steps), id, row)
    decreases |steps|
  {
    hide WellFormed, Conserved, Waiting, Apply, Readmits;
    if steps != [] {
      RunKeepsWaiting(s, steps[..|steps| - 1], id, row);
      StepConserves(Run(s, steps[..|steps| - 1]), steps[|steps| - 1]);
      StepKeepsWaiting(Run(s, steps[..|steps| - 1]), steps[|steps| - 1], id, row);
    }
  }

  lemma SettlesWaiting(s: State, o: Report, now: int, row: Row)
    requires WellFormed(s) && Waiting(s, AttemptId(o.tenant, o.attempt), row) && Finalize(s, o, now).0 != s
    ensures AttemptId(o.tenant, o.attempt) in s.attempts && s.attempts[AttemptId(o.tenant, o.attempt)] == row
  {
    hide Finalize, WellFormed, Decide;
    FinalizeRow(s, o, now);
  }

  /** The state in which a later settlement finds a pending attempt. */
  lemma PendingRowWaits(s0: State, before: seq<Step>, pending: Report, now: int, middle: seq<Step>, o: Report,
                        later: int)
    requires Initial(s0) && pending.state == Named(JobPending)
             && Finalize(Run(s0, before), pending, now).0 != Run(s0, before)
    requires !Readmitted(Run(s0, before + [DoFinalize(pending, now)]), middle,
             AttemptId(pending.tenant, pending.attempt))
    requires o.tenant == pending.tenant && o.attempt == pending.attempt
    requires var s := Run(s0, before + [DoFinalize(pending, now)] + middle); Finalize(s, o, later).0 != s
    ensures var s := Run(s0, before + [DoFinalize(pending, now)] + middle);
            var id := AttemptId(o.tenant, o.attempt);
            && WellFormed(s) && id in s.attempts && s.attempts[id].env.chargedCost == 0
            && (Load(s.attempts[id].env).chargedCostKnown <==> UsableCost(pending))
  {
    hide Finalize, WellFormed, Conserved, Waiting, Load, Orderly, Initial, UsableCost;
    var first := before + [DoFinalize(pending, now)];
    var id := AttemptId(o.tenant, o.attempt);
    RunConserves(s0, before);
    RunConserves(s0, first);
    RunIsOrderly(s0, before);
    assert first[..|before|] == before;
    PendingStaysChargeable(Run(s0, before), pending, now);
    FinalizeKeepsId(Run(s0, before), pending, now);
    var row := Run(s0, first).attempts[id];
    assert Waiting(Run(s0, first), id, row) by { StartsWaiting(Run(s0, first), id, row); }
    RunKeepsWaiting(Run(s0, first), middle, id, row);
    RunJoin(s0, first, middle);
    SettlesWaiting(Run(s0, first + middle), o, later, row);
  }

  lemma StartsWaiting(s: State, id: AttemptId, row: Row)
    requires id in s.attempts && s.attempts[id] == row
    ensures Waiting(s, id, row)
  {
  }

  lemma FinalizeKeepsId(s: State, o: Report, now: int)
    requires WellFormed(s) && Finalize(s, o, now).0 != s
    ensures AttemptId(o.tenant, o.attempt) in Finalize(s, o, now).0.attempts
  {
    hide Finalize, Decide, WellFormed;
    FinalizeRow(s, o, now);
  }

  /**
   After a job-pending report, and whatever the run does before the settlement,
   a settlement at a known nonzero cost charges it exactly when the pending
   report carried no usable cost, and records it when its ledger id is also free.
   */
  lemma PendingDecidesCharge(s0: State, before: seq<Step>, pending: Report, now: int, middle: seq<Step>, o: Report,
                             later: int)
    requires Initial(s0) && pending.state == Named(JobPending)
             && Finalize(Run(s0, before), pending, now).0 != Run(s0, before)
    requires !Readmitted(Run(s0, before + [DoFinalize(pending, now)]), middle,
             AttemptId(pending.tenant, pending.attempt))
    requires o.tenant == pending.tenant && o.attempt == pending.attempt
    requires var s := Run(s0, before + [DoFinalize(pending, now)] + middle);
             var id := AttemptId(o.tenant, o.attempt);
             && Finalize(s, o, later).0 != s && id in s.attempts
             && SettledCost(s.attempts[id].env, o).Some? && SettledCost(s.attempts[id].env, o).value != 0
    ensures var s := Run(s0, before + [DoFinalize(pending, now)] + middle);
            var s' := Finalize(s, o, later).0;
            var id := AttemptId(o.tenant, o.attempt);
            var cost := SettledCost(s.attempts[id].env, o).value;
            && id in s'.attempts
            && (s'.attempts[id].env.chargedCost == cost <==> !UsableCost(pending))
            && (LedgerTotal(s', id) - LedgerTotal(s, id) == cost
                <==> !UsableCost(pending) && EffectId(id.tenant, id.attempt + CHARGE_SUFFIX) !in s.ledger)
  {
    hide Finalize, WellFormed, Load, SettledCost, LedgerTotal, Run, UsableCost;
    var s := Run(s0, before + [DoFinalize(pending, now)] + middle);
    PendingRowWaits(s0, before, pending, now, middle, o, later);
    KnownCostCharges(s, o, later);
    FinalizeKeepsId(s, o, later);
  }
}
