/**
 The usage ledger telescopes: the amounts recorded for an attempt sum to its
 charged cost, cost holds equal that charge once it is known, and replays of a
 settlement or a reconciliation add nothing.
 */
module AdmissionLedger {
  import opened Basics
  import opened Cost
  import opened Sums
  import opened AdmissionModel
  import opened AdmissionInvariant
  import opened AdmissionSafety
  import opened AdmissionCeiling

  /** The amount an effect contributes to one attempt. */
  ghost function AmountFor(id: AttemptId): Effect -> int {
    (e: Effect) => if e.attempt == id && e.amount.Some? then e.amount.value else 0
  }

  /** All ledger amounts of an attempt, including rows that retention removed. */
  ghost function LedgerTotal(s: State, id: AttemptId): int {
    Sum(s.ledger, AmountFor(id)) + SumSeq(s.expired, AmountFor(id))
  }

  const RESERVED_PREFIX := "reconciliation"

  ghost predicate ChargeShaped(e: Effect) { e.id == EffectId(e.attempt.tenant, e.attempt.attempt + CHARGE_SUFFIX) }
  ghost predicate ReconciliationShaped(e: Effect) { RECONCILIATION_PREFIX <= e.id.effect }

  ghost predicate LedgerShaped(s: State) {
    forall k | k in s.ledger :: s.ledger[k].id == k && (ChargeShaped(s.ledger[k]) || ReconciliationShaped(s.ledger[k]))
  }

  /** The attempt appears nowhere in the ledger or its history. */
  ghost predicate Unrecorded(s: State, id: AttemptId) {
    && (forall k | k in s.ledger :: s.ledger[k].attempt != id)
    && (forall e | e in s.expired :: e.attempt != id)
  }

  /** A live attempt has been charged nothing yet. */
  ghost predicate Uncharged(s: State, id: AttemptId, env: Envelope) {
    && Unrecorded(s, id) && env.chargedCost == 0 && !Load(env).chargedCostKnown
    && !(RESERVED_PREFIX <= id.attempt)
  }

  /** Cost entries hold exactly the charge once it is known. */
  ghost predicate HoldsCharge(env: Envelope) {
    Load(env).chargedCostKnown ==>
      forall i | 0 <= i < |env.held| && i < |env.plan.allowances| && env.plan.allowances[i].kind == CostKind ::
        env.held[i] == env.chargedCost
  }

  predicate Executed(state: AttemptState) { state == Settled || state == OutcomeUnknown }

  ghost predicate RowTelescopes(s: State, id: AttemptId, row: Row) {
    && LedgerTotal(s, id) == row.env.chargedCost
    && (Live(row.state) ==> Uncharged(s, id, row.env))
    && (Executed(row.state) ==> HoldsCharge(row.env))
  }

  ghost predicate Telescopes(s: State) {
    && LedgerShaped(s)
    && forall id | id in s.attempts :: RowTelescopes(s, id, s.attempts[id])
  }

  /** Job-pending outcomes carry no cost; new attempts use fresh, unreserved ids. */
  ghost predicate LedgerStep(s: State, step: Step) {
    match step
    case DoBegin(p, _, _, _) =>
      AttemptId(p.tenant, p.attempt) !in s.attempts ==>
        Unrecorded(s, AttemptId(p.tenant, p.attempt)) && !(RESERVED_PREFIX <= p.attempt)
    case DoFinalize(o, _) => o.state == Named(JobPending) ==> o.actualCost.None?
    case _ => true
  }

  ghost predicate LedgerRun(s: State, steps: seq<Step>)
    decreases |steps|
  {
    steps == []
    || (LedgerRun(s, steps[..|steps| - 1]) && LedgerStep(Run(s, steps[..|steps| - 1]), steps[|steps| - 1]))
  }

  // ----------------------------------------------------------------- effect ids

  /** A charge effect never shares its id with a reconciliation unless the attempt id is reserved. */
  lemma ChargeIdDiffers(attempt: string, reconciliation: string)
    requires attempt + CHARGE_SUFFIX == RECONCILIATION_PREFIX + reconciliation
    ensures RESERVED_PREFIX <= attempt
  {
    var text := attempt + CHARGE_SUFFIX;
    assert text[..14] == RESERVED_PREFIX by {
      assert RECONCILIATION_PREFIX[..14] == RESERVED_PREFIX;
    }
    assert forall i | 0 <= i < 14 :: RESERVED_PREFIX[i] != ':';
    assert |attempt| >= 14 by {
      assert text[|attempt|] == CHARGE_SUFFIX[0] == ':';
      assert forall i | 0 <= i < 14 :: text[i] == text[..14][i];
    }
    assert attempt[..14] == text[..14];
  }

  lemma SuffixInjective(a: string, b: string, suffix: string)
    requires a + suffix == b + suffix
    ensures a == b
  {
    assert |a| == |b|;
    assert a == (a + suffix)[..|a|];
    assert b == (b + suffix)[..|b|];
  }

  /** The charge row of a live attempt is not taken. */
  lemma ChargeIdFree(s: State, id: AttemptId, amount: int, now: int)
    requires LedgerShaped(s) && Unrecorded(s, id) && !(RESERVED_PREFIX <= id.attempt)
    ensures ChargeEffect(id, amount, now).id !in s.ledger
  {
    var key := ChargeEffect(id, amount, now).id;
    if key in s.ledger {
      var e := s.ledger[key];
      if ChargeShaped(e) {
        SuffixInjective(e.attempt.attempt, id.attempt, CHARGE_SUFFIX);
      } else {
        var rest := key.effect[|RECONCILIATION_PREFIX|..];
        assert key.effect == RECONCILIATION_PREFIX + rest;
        ChargeIdDiffers(id.attempt, rest);
      }
    }
  }

  // ------------------------------------------------------------ recording steps

  /** Adding one effect changes the total of its own attempt only. */
  lemma RecordedTotal(s: State, s': State, e: Effect, id: AttemptId)
    requires e.id !in s.ledger && s'.ledger == s.ledger[e.id := e] && s'.expired == s.expired
    ensures LedgerTotal(s', id) == LedgerTotal(s, id) + AmountFor(id)(e)
  {
    SumUpdate(s.ledger, e.id, e, AmountFor(id));
  }

  lemma SameLedger(s: State, s': State, id: AttemptId)
    requires s'.ledger == s.ledger && s'.expired == s.expired
    ensures LedgerTotal(s', id) == LedgerTotal(s, id)
  {
  }

  /** A charge settles the ledger of a live attempt, and leaves every other attempt alone. */
  lemma ChargeTelescopes(s: State, s': State, id: AttemptId, e: Effect, row: Row)
    requires Telescopes(s) && id in s.attempts && Uncharged(s, id, s.attempts[id].env)
    requires e.attempt == id && e.amount == Some(row.env.chargedCost) && e.id !in s.ledger
             && (ChargeShaped(e) || ReconciliationShaped(e))
    requires s'.ledger == s.ledger[e.id := e] && s'.expired == s.expired && s'.attempts == s.attempts[id := row]
    requires !Live(row.state) && (Executed(row.state) ==> HoldsCharge(row.env))
    ensures Telescopes(s')
  {
    forall j | j in s'.attempts ensures RowTelescopes(s', j, s'.attempts[j]) {
      RecordedTotal(s, s', e, j);
      assert RowTelescopes(s, j, s.attempts[j]);
    }
  }

  lemma UnrecordedUpdate(s: State, s': State, id: AttemptId, row: Row)
    requires Telescopes(s) && id in s.attempts && row.env.chargedCost == s.attempts[id].env.chargedCost
    requires s'.ledger == s.ledger && s'.expired == s.expired && s'.attempts == s.attempts[id := row]
    requires Live(row.state) ==> Uncharged(s, id, row.env)
    requires Executed(row.state) ==> HoldsCharge(row.env)
    ensures Telescopes(s')
  {
    forall j | j in s'.attempts ensures RowTelescopes(s', j, s'.attempts[j]) {
      SameLedger(s, s', j);
      assert RowTelescopes(s, j, s.attempts[j]);
    }
  }

  /** What a settlement stores, and the ledger it leaves. */
  lemma FinalizeRecords(s: State, o: Report, now: int)
    requires WellFormed(s) && Finalize(s, o, now).0 != s
    ensures var s' := Finalize(s, o, now).0;
            var id := AttemptId(o.tenant, o.attempt);
            && id in s.attempts && RequestedState(o.state).Some? && s'.expired == s.expired
            && var env := Load(s.attempts[id].env);
               var t := Decide(env, RequestedState(o.state).value, o);
               var env' := s'.attempts[id].env;
               && s'.ledger == (if Charges(env, t)
                   then RecordOnce(s.ledger, ChargeEffect(id, t.actualCost.value, now)) else s.ledger)
               && env'.chargedCost == (if Charges(env, t) then t.actualCost.value else env.chargedCost)
               && env'.chargedCostKnown == (env.chargedCostKnown || Charges(env, t))
               && env'.outcome.Some? && env'.outcome.value.actualCost == t.actualCost
  {
    LoadAligned(s.attempts[AttemptId(o.tenant, o.attempt)].env);
  }

  lemma SettledHoldsCharge(env: Envelope, t: Settlement, env': Envelope)
    requires Aligned(env) && !env.chargedCostKnown && env'.plan == env.plan && env'.held == SettledTargets(env, t)
    requires t.costKnown == (t.next != NotExecuted && t.actualCost.Some?)
    requires env'.chargedCost == (if Charges(env, t) then t.actualCost.value else env.chargedCost)
    requires env'.chargedCostKnown == (env.chargedCostKnown || Charges(env, t)) && env.chargedCost == 0
    requires env'.outcome.Some? && env'.outcome.value.actualCost == t.actualCost
    ensures Executed(t.next) ==> HoldsCharge(env')
    ensures t.next == JobPending && t.actualCost.None? ==> !Load(env').chargedCostKnown
  {
  }

  lemma DecisionShape(env: Envelope, next: AttemptState, o: Report)
    requires next != DispatchIntent && next != Accepted
    ensures var t := Decide(env, next, o);
            && t.costKnown == (t.next != NotExecuted && t.actualCost.Some?)
            && t.next != DispatchIntent && t.next != Accepted
            && (t.next == JobPending
                ==> next == JobPending && t.actualCost == (if Negative(o.actualCost) then None else o.actualCost))
  {
  }

  lemma FinalizeTelescopes(s: State, o: Report, now: int)
    requires WellFormed(s) && Telescopes(s) && LedgerStep(s, DoFinalize(o, now))
    ensures Telescopes(Finalize(s, o, now).0)
  {
    hide Finalize, Decide, WellFormed, Load, SettledTargets, Telescopes, HoldsCharge;
    var s' := Finalize(s, o, now).0;
    if s' != s {
      FinalizeRow(s, o, now);
      FinalizeRecords(s, o, now);
      var id := AttemptId(o.tenant, o.attempt);
      var env, row := Load(s.attempts[id].env), s'.attempts[id];
      var next := RequestedState(o.state).value;
      var t := Decide(env, next, o);
      DecisionShape(env, next, o);
      TelescopesAt(s, id);
      LoadAgain(s.attempts[id].env);
      SettledHoldsCharge(env, t, row.env);
      if Charges(env, t) {
        ChargeIdFree(s, id, t.actualCost.value, now);
        ChargeTelescopes(s, s', id, ChargeEffect(id, t.actualCost.value, now), row);
      } else {
        UnrecordedUpdate(s, s', id, row);
      }
    }
  }

  lemma TelescopesAt(s: State, id: AttemptId)
    requires Telescopes(s) && id in s.attempts
    ensures LedgerShaped(s) && RowTelescopes(s, id, s.attempts[id])
  {
  }

  lemma LoadAgain(env: Envelope)
    requires Aligned(env)
    ensures Load(env).chargedCost == env.chargedCost && Load(env).plan == env.plan && Load(env).held == env.held
    ensures env.chargedCostKnown ==> Load(env).chargedCostKnown
    ensures env.outcome.Some? && env.outcome.value.actualCost.Some? ==> Load(env).chargedCostKnown
  {
  }

  // ------------------------------------------------------------- reconciliation

  lemma ReconcileRecords(s: State, tenant: string, authorized: bool, admission: string, expected: int,
                         body: Reconciliation, now: int)
    requires WellFormed(s) && Reconcile(s, tenant, authorized, admission, expected, body, now).0 != s
    ensures var s' := Reconcile(s, tenant, authorized, admission, expected, body, now).0;
            var id := AttemptId(tenant, admission);
            var r := body.(usage := NormalizeUsage(body.usage).usage);
            && id in s.attempts && s'.expired == s.expired
            && var env := Load(s.attempts[id].env);
               var charge := DecideCharge(env, r);
               var env' := s'.attempts[id].env;
               var delta := if charge.Known? then Some(charge.amount - env.chargedCost) else None;
               var e := ReconcileEffect(id, r, delta, now);
               && e.id !in s.ledger && s'.ledger == s.ledger[e.id := e]
               && env'.chargedCost == (if charge.Known? then charge.amount else env.chargedCost)
               && env'.chargedCostKnown == (env.chargedCostKnown || charge.Known?)
               && (!charge.Known? && env'.outcome.Some? && env'.outcome.value.actualCost.Some? ==>
                     env.outcome.Some? && env.outcome.value.actualCost.Some?)
  {
    LoadAligned(s.attempts[AttemptId(tenant, admission)].env);
  }

  lemma ReconciledHoldsCharge(env: Envelope, charge: Charge, tokens: Option<Int64>, env': Envelope)
    requires Aligned(env) && HoldsCharge(env) && !charge.Unavailable?
    requires env.chargedCostKnown == Load(env).chargedCostKnown
    requires env'.plan == env.plan && env'.held == ReconciledTargets(env, charge, tokens)
    requires env'.chargedCost == (if charge.Known? then charge.amount else env.chargedCost)
    requires env'.chargedCostKnown == (env.chargedCostKnown || charge.Known?)
    requires !charge.Known? && env'.outcome.Some? && env'.outcome.value.actualCost.Some? ==>
               env.outcome.Some? && env.outcome.value.actualCost.Some?
    ensures HoldsCharge(env')
  {
  }

  /** Recording one more effect with the difference keeps every sum. */
  lemma DeltaTelescopes(s: State, s': State, id: AttemptId, e: Effect, row: Row)
    requires Telescopes(s) && id in s.attempts && s.attempts[id].state == OutcomeUnknown == row.state
    requires e.attempt == id && e.id !in s.ledger && ReconciliationShaped(e)
    requires AmountFor(id)(e) == row.env.chargedCost - s.attempts[id].env.chargedCost
    requires s'.ledger == s.ledger[e.id := e] && s'.expired == s.expired && s'.attempts == s.attempts[id := row]
    requires HoldsCharge(row.env)
    ensures Telescopes(s')
  {
    forall j | j in s'.attempts ensures RowTelescopes(s', j, s'.attempts[j]) {
      RecordedTotal(s, s', e, j);
      assert RowTelescopes(s, j, s.attempts[j]);
    }
  }

  lemma LoadedHoldsCharge(env: Envelope)
    requires Aligned(env) && HoldsCharge(env)
    ensures HoldsCharge(Load(env)) && Load(env).chargedCostKnown == Load(Load(env)).chargedCostKnown
            && Aligned(Load(env))
  {
  }

  lemma ReconcileTelescopes(s: State, tenant: string, authorized: bool, admission: string, expected: int,
                            body: Reconciliation, now: int)
    requires WellFormed(s) && Telescopes(s)
    ensures Telescopes(Reconcile(s, tenant, authorized, admission, expected, body, now).0)
  {
    hide Reconcile, DecideCharge, WellFormed, Load, ReconciledTargets, Telescopes, HoldsCharge, NormalizeUsage,
        CheckReconciliation;
    var s' := Reconcile(s, tenant, authorized, admission, expected, body, now).0;
    if s' != s {
      ReconcileRow(s, tenant, authorized, admission, expected, body, now);
      ReconcileRecords(s, tenant, authorized, admission, expected, body, now);
      var id := AttemptId(tenant, admission);
      var r := body.(usage := NormalizeUsage(body.usage).usage);
      var env, row := Load(s.attempts[id].env), s'.attempts[id];
      var charge := DecideCharge(env, r);
      TelescopesAt(s, id);
      LoadAgain(s.attempts[id].env);
      LoadedHoldsCharge(s.attempts[id].env);
      ReconciledHoldsCharge(env, charge, EvidenceTokens(r), row.env);
      var delta := if charge.Known? then Some(charge.amount - env.chargedCost) else None;
      DeltaTelescopes(s, s', id, ReconcileEffect(id, r, delta, now), row);
    }
  }

  // -------------------------------------------------------- retention and sweep

  lemma ExpireOneTelescopes(s: State, id: EffectId, now: int)
    requires Telescopes(s)
    ensures Telescopes(ExpireOne(s, id, now))
  {
    var s' := ExpireOne(s, id, now);
    if s' != s {
      forall j | j in s'.attempts ensures RowTelescopes(s', j, s'.attempts[j]) {
        SumRemove(s.ledger, id, AmountFor(j));
        SumSeqSnoc(s.expired, s.ledger[id], AmountFor(j));
        assert RowTelescopes(s, j, s.attempts[j]);
      }
    }
  }

  lemma {:induction false} ExpireTelescopes(s: State, ids: seq<EffectId>, now: int)
    requires Telescopes(s)
    ensures Telescopes(ExpireFrom(s, ids, now))
    decreases |ids|
  {
    if ids != [] {
      ExpireOneTelescopes(s, ids[0], now);
      ExpireTelescopes(ExpireOne(s, ids[0], now), ids[1..], now);
    }
  }

  lemma PurgeOneTelescopes(s: State, id: AttemptId, now: int)
    requires Telescopes(s)
    ensures Telescopes(PurgeOne(s, id, now))
  {
    var s' := PurgeOne(s, id, now);
    assert LedgerShaped(s');
    forall j | j in s'.attempts ensures RowTelescopes(s', j, s'.attempts[j]) {
      SameLedger(s, s', j);
      assert RowTelescopes(s, j, s.attempts[j]);
    }
  }

  lemma {:induction false} PurgeTelescopes(s: State, settled: seq<AttemptId>, now: int)
    requires Telescopes(s)
    ensures Telescopes(PurgeFrom(s, settled, now))
    decreases |settled|
  {
    hide Telescopes;
    if settled != [] {
      PurgeOneTelescopes(s, settled[0], now);
      PurgeTelescopes(PurgeOne(s, settled[0], now), settled[1..], now);
    }
  }

  lemma SweepOneTelescopes(s: State, id: AttemptId, now: int)
    requires WellFormed(s) && Telescopes(s) && SweepOne(s, id, now).Ok?
    ensures Telescopes(SweepOne(s, id, now).value)
  {
    hide WellFormed, Telescopes;
    var s' := SweepOne(s, id, now).value;
    if s' != s {
      SweepOneRow(s, id, now);
      TelescopesAt(s, id);
      UnrecordedUpdate(s, s', id, s'.attempts[id]);
    }
  }

  lemma {:induction false} SweepTelescopes(s: State, due: seq<AttemptId>, now: int)
    requires WellFormed(s) && Conserved(s) && Telescopes(s) && SweepFrom(s, due, now).Ok?
    ensures Telescopes(SweepFrom(s, due, now).value)
    decreases |due|
  {
    if due != [] {
      SweepOneTelescopes(s, due[0], now);
      var s1 := SweepOne(s, due[0], now).value;
      if s1 != s {
        var env := s.attempts[due[0]].env;
        SweepOneRow(s, due[0], now);
        MovedHeld(env, s.allowances, ReleaseTargets(env), true);
        MovedConserves(s, s1, due[0], env, ReleaseTargets(env), true, s1.attempts[due[0]]);
      }
      SweepTelescopes(s1, due[1..], now);
    }
  }

  lemma MaintainTelescopes(s: State, now: int, due: seq<AttemptId>, settled: seq<AttemptId>, effects: seq<EffectId>)
    requires WellFormed(s) && Conserved(s) && Telescopes(s)
    ensures Telescopes(Maintain(s, now, due, settled, effects).0)
  {
    hide Telescopes;
    var swept := SweepFrom(s, due, now);
    if swept.Ok? {
      SweepTelescopes(s, due, now);
      PurgeTelescopes(swept.value, settled, now);
      ExpireTelescopes(PurgeFrom(swept.value, settled, now), effects, now);
    }
  }

  // ----------------------------------------------------------------------- runs

  lemma AcceptTelescopes(s: State, permit: Permit, evidence: string, now: int)
    requires WellFormed(s) && Telescopes(s)
    ensures Telescopes(Accept(s, permit, evidence, now).0)
  {
    hide Accept, WellFormed, Telescopes;
    var s' := Accept(s, permit, evidence, now).0;
    if s' != s {
      AcceptRow(s, permit, evidence, now);
      var id := AttemptId(permit.tenant, permit.attempt);
      TelescopesAt(s, id);
      UnrecordedUpdate(s, s', id, s'.attempts[id]);
    }
  }

  lemma BeginKeepsLedger(s: State, p: Plan, clock: Clock, scan: seq<Key>, approved: bool)
    requires WellFormed(s) && Conserved(s)
    ensures var s' := Begin(s, p, clock, scan, approved).0; s'.ledger == s.ledger && s'.expired == s.expired
  {
    if Derive(s, p, clock, scan, approved).Ok? {
      DeriveConserves(s, p, clock, scan, approved);
    }
  }

  lemma NothingRecorded(s: State, id: AttemptId)
    requires Unrecorded(s, id)
    ensures LedgerTotal(s, id) == 0
  {
    SumZero(s.ledger, AmountFor(id));
    ExpiredZero(s.expired, id);
  }

  lemma {:induction false} ExpiredZero(expired: seq<Effect>, id: AttemptId)
    requires forall e | e in expired :: e.attempt != id
    ensures SumSeq(expired, AmountFor(id)) == 0
  {
    if expired != [] {
      ExpiredZero(expired[..|expired| - 1], id);
      assert expired[|expired| - 1] in expired;
    }
  }

  lemma BeginTelescopes(s: State, p: Plan, clock: Clock, scan: seq<Key>, approved: bool)
    requires WellFormed(s) && Conserved(s) && Telescopes(s) && LedgerStep(s, DoBegin(p, clock, scan, approved))
    ensures Telescopes(Begin(s, p, clock, scan, approved).0)
  {
    hide Begin, WellFormed, Conserved, SeenRequest, EntryReserved;
    var s' := Begin(s, p, clock, scan, approved).0;
    BeginKeepsLedger(s, p, clock, scan, approved);
    BeginRows(s, p, clock, scan, approved);
    if s'.attempts != s.attempts {
      AdmittedEntries(s, p, clock, scan, approved);
      NothingRecorded(s, AttemptId(p.tenant, p.attempt));
    }
    forall j | j in s'.attempts ensures RowTelescopes(s', j, s'.attempts[j]) {
      SameLedger(s, s', j);
      assert j in s.attempts ==> RowTelescopes(s, j, s.attempts[j]);
    }
  }

  lemma ConfigureTelescopes(s: State, limits: map<Key, Limit>, windows: map<WindowKey, Window>,
                            models: map<ModelKey, Model>, config: int, counters: set<Key>)
    requires Telescopes(s)
    ensures Telescopes(Configure(s, limits, windows, models, config, counters))
  {
    var s' := Configure(s, limits, windows, models, config, counters);
    forall j | j in s'.attempts ensures RowTelescopes(s', j, s'.attempts[j]) {
      SameLedger(s, s', j);
      assert RowTelescopes(s, j, s.attempts[j]);
    }
  }

  lemma StepTelescopes(s: State, step: Step)
    requires WellFormed(s) && Conserved(s) && Telescopes(s) && LedgerStep(s, step)
    ensures Telescopes(Apply(s, step))
  {
    hide Begin, Accept, Finalize, Reconcile, Maintain, Configure, Conserved, WellFormed, Telescopes;
    match step {
      case DoBegin(plan, clock, scan, approved) => BeginTelescopes(s, plan, clock, scan, approved);
      case DoAccept(permit, evidence, now) => AcceptTelescopes(s, permit, evidence, now);
      case DoFinalize(o, now) => FinalizeTelescopes(s, o, now);
      case DoReconcile(tenant, authorized, admission, expected, body, now) =>
        ReconcileTelescopes(s, tenant, authorized, admission, expected, body, now);
      case DoMaintain(now, due, settled, effects) => MaintainTelescopes(s, now, due, settled, effects);
      case DoConfigure(limits, windows, models, config, counters) =>
        ConfigureTelescopes(s, limits, windows, models, config, counters);
    }
  }

  /**
   In every run with fresh attempt ids and cost-free job-pending outcomes, the
   ledger of each stored attempt sums to its charge, and the cost holds of an
   executed attempt equal that charge once it is known.
   */
  lemma {:induction false} LedgerTelescopes(s: State, steps: seq<Step>)
    requires Initial(s) && LedgerRun(s, steps)
    ensures Telescopes(Run(s, steps))
    decreases |steps|
  {
    if steps != [] {
      RunConserves(s, steps[..|steps| - 1]);
      LedgerTelescopes(s, steps[..|steps| - 1]);
      StepTelescopes(Run(s, steps[..|steps| - 1]), steps[|steps| - 1]);
    }
  }

  // -------------------------------------------------------------------- replays

  /** Repeating a settlement changes nothing, whether the first was accepted, refused or downgraded. */
  lemma FinalizeIsIdempotent(s: State, o: Report, now: int, later: int)
    ensures var s' := Finalize(s, o, now).0; Finalize(s', o, later).0 == s'
  {
    var s' := Finalize(s, o, now).0;
    if s' != s {
      var env := Load(s.attempts[AttemptId(o.tenant, o.attempt)].env);
      SettledReplays(env, RequestedState(o.state).value, o);
    }
  }

  lemma SettledReplays(env: Envelope, next: AttemptState, o: Report)
    requires next != DispatchIntent && next != Accepted
    ensures TransitionTo(Decide(env, next, o).next, next) != Proceed
  {
  }

  ghost predicate KeepsReconciliations(s: State, s': State) {
    forall id | id in s.reconciliations :: id in s'.reconciliations && s'.reconciliations[id] == s.reconciliations[id]
  }

  lemma BeginKeepsReconciliations(s: State, p: Plan, clock: Clock, scan: seq<Key>, approved: bool)
    requires WellFormed(s) && Conserved(s)
    ensures KeepsReconciliations(s, Begin(s, p, clock, scan, approved).0)
  {
    hide WellFormed, Conserved;
    if Derive(s, p, clock, scan, approved).Ok? {
      DeriveConserves(s, p, clock, scan, approved);
    }
  }

  lemma MaintainKeepsReconciliations(s: State, now: int, due: seq<AttemptId>, settled: seq<AttemptId>,
                                     effects: seq<EffectId>)
    ensures KeepsReconciliations(s, Maintain(s, now, due, settled, effects).0)
  {
    var swept := SweepFrom(s, due, now);
    if swept.Ok? {
      SweepKeepsReconciliations(s, due, now);
      PurgeKeepsCounters(swept.value, settled, now);
      ExpireKeepsAccounting(PurgeFrom(swept.value, settled, now), effects, now);
    }
  }

  lemma FinalizeKeepsReconciliations(s: State, o: Report, now: int)
    ensures KeepsReconciliations(s, Finalize(s, o, now).0)
  {
  }

  lemma AcceptKeepsReconciliations(s: State, permit: Permit, evidence: string, now: int)
    ensures KeepsReconciliations(s, Accept(s, permit, evidence, now).0)
  {
  }

  lemma ReconcileKeepsReconciliations(s: State, tenant: string, authorized: bool, admission: string, expected: int,
                                      body: Reconciliation, now: int)
    ensures KeepsReconciliations(s, Reconcile(s, tenant, authorized, admission, expected, body, now).0)
  {
    hide MoveHolds, DecideCharge, CheckReconciliation, NormalizeUsage, Load, ReconciledTargets, Blank;
  }

  /** Recorded reconciliations are never changed or removed. */
  lemma ReconciliationsPersist(s: State, step: Step)
    requires WellFormed(s) && Conserved(s)
    ensures KeepsReconciliations(s, Apply(s, step))
  {
    hide WellFormed, Conserved, Begin, Accept, Finalize, Reconcile, Maintain;
    match step {
      case DoBegin(plan, clock, scan, approved) => BeginKeepsReconciliations(s, plan, clock, scan, approved);
      case DoAccept(permit, evidence, now) => AcceptKeepsReconciliations(s, permit, evidence, now);
      case DoFinalize(o, now) => FinalizeKeepsReconciliations(s, o, now);
      case DoReconcile(tenant, authorized, admission, expected, body, now) =>
        ReconcileKeepsReconciliations(s, tenant, authorized, admission, expected, body, now);
      case DoMaintain(now, due, settled, effects) => MaintainKeepsReconciliations(s, now, due, settled, effects);
      case DoConfigure(_, _, _, _, _) =>
    }
  }

  lemma {:induction false} SweepKeepsReconciliations(s: State, due: seq<AttemptId>, now: int)
    requires SweepFrom(s, due, now).Ok?
    ensures SweepFrom(s, due, now).value.reconciliations == s.reconciliations
    decreases |due|
  {
    if due != [] {
      SweepKeepsReconciliations(SweepOne(s, due[0], now).value, due[1..], now);
    }
  }

  lemma {:induction false} RunKeepsReconciliation(s0: State, before: seq<Step>, after: seq<Step>, id: ReconciliationId)
    requires Initial(s0) && id in Run(s0, before).reconciliations
    ensures id in Run(s0, before + after).reconciliations
         && Run(s0, before + after).reconciliations[id] == Run(s0, before).reconciliations[id]
    decreases |after|
  {
    if after == [] {
      assert before + after == before;
    } else {
      var n := |after| - 1;
      assert (before + after)[..|before + after| - 1] == before + after[..n];
      RunKeepsReconciliation(s0, before, after[..n], id);
      RunConserves(s0, before + after[..n]);
      ReconciliationsPersist(Run(s0, before + after[..n]), after[n]);
    }
  }

  /**
   A reconciliation id is final: however the run continues, the same request
   gets the same answer and changes nothing.
   */
  lemma ReconcileReplays(s0: State, before: seq<Step>, after: seq<Step>, tenant: string, admission: string,
                         expected: int, body: Reconciliation, now: int, later: int)
    requires Initial(s0)
    requires Reconcile(Run(s0, before), tenant, true, admission, expected, body, now).1.Ok?
    ensures var answer := Reconcile(Run(s0, before), tenant, true, admission, expected, body, now).1;
            var s := Run(s0, before + [DoReconcile(tenant, true, admission, expected, body, now)] + after);
            Reconcile(s, tenant, true, admission, expected, body, later) == (s, answer)
  {
    var step := DoReconcile(tenant, true, admission, expected, body, now);
    var id := ReconciliationId(tenant, body.id);
    assert (before + [step])[..|before|] == before;
    ReconcileStores(Run(s0, before), tenant, admission, expected, body, now);
    RunKeepsReconciliation(s0, before + [step], after, id);
  }

  lemma ReconcileStores(s: State, tenant: string, admission: string, expected: int, body: Reconciliation, now: int)
    requires Reconcile(s, tenant, true, admission, expected, body, now).1.Ok?
    ensures var (s', answer) := Reconcile(s, tenant, true, admission, expected, body, now);
            var id := ReconciliationId(tenant, body.id);
            && !Blank(body.id) && !Blank(admission)
            && id in s'.reconciliations
            && s'.reconciliations[id] == Reconciled(ReconcileRequest(admission, expected, body), answer.value)
  {
  }

  // ------------------------------------------------------------ exact conditions

  /**
   A charge that a settlement makes reaches the ledger exactly when its effect id
   is free; a taken id is silently skipped and the ledger falls short.
   */
  lemma ChargeReachesLedger(s: State, o: Report, now: int)
    requires WellFormed(s) && Finalize(s, o, now).0 != s
    requires var id := AttemptId(o.tenant, o.attempt);
             Finalize(s, o, now).0.attempts[id].env.chargedCost != s.attempts[id].env.chargedCost
    ensures var id := AttemptId(o.tenant, o.attempt);
            var s' := Finalize(s, o, now).0;
            LedgerTotal(s', id) - LedgerTotal(s, id) == s'.attempts[id].env.chargedCost - s.attempts[id].env.chargedCost
            <==> EffectId(id.tenant, id.attempt + CHARGE_SUFFIX) !in s.ledger
  {
    hide Finalize, Decide, WellFormed, LedgerTotal;
    FinalizeRow(s, o, now);
    FinalizeRecords(s, o, now);
    var id := AttemptId(o.tenant, o.attempt);
    var s' := Finalize(s, o, now).0;
    LoadAgain(s.attempts[id].env);
    var effect := ChargeEffect(id, s'.attempts[id].env.chargedCost, now);
    if effect.id !in s.ledger {
      RecordedTotal(s, s', effect, id);
    } else {
      SameLedger(s, s', id);
    }
  }

  lemma PendingDecision(env: Envelope, o: Report)
    ensures Decide(env, JobPending, o).next == JobPending
  {
  }
}
