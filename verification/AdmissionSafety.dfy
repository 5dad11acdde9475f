/**
 What every step keeps: holds stay non-negative, releases are never blocked,
 concurrency and request holds only ever disappear, and history only grows.
 */
module AdmissionSafety {
  import opened Basics
  import opened Cost
  import opened Sums
  import opened AdmissionModel
  import opened AdmissionInvariant

  // ----------------------------------------------------- how one entry evolves

  /** What any step may do to the hold of one stored entry. */
  ghost predicate EntryStep(kind: Kind, before: int, after: int) {
    && (before >= 0 ==> after >= 0)
    && (kind != CostKind && kind != TokenKind ==> after == before || after == 0)
  }

  ghost predicate RowStep(before: Row, after: Row) {
    && after.env.plan == before.env.plan
    && |after.env.held| == |before.env.held| == |before.env.plan.allowances|
    && forall i | 0 <= i < |before.env.held| ::
         EntryStep(before.env.plan.allowances[i].kind, before.env.held[i], after.env.held[i])
  }

  /** Every attempt stored before and after kept its plan, and its entries only took allowed steps. */
  ghost predicate RowsStep(s: State, s': State) {
    forall id | id in s.attempts && id in s'.attempts :: RowStep(s.attempts[id], s'.attempts[id])
  }

  ghost predicate Evolves(s: State, s': State) {
    RowsStep(s, s') && s.archive <= s'.archive
  }

  /** A step that updates rows in place: nothing is added, removed or archived. */
  ghost predicate InPlace(s: State, s': State) {
    RowsStep(s, s') && s'.attempts.Keys == s.attempts.Keys && s'.archive == s.archive
  }

  lemma MovedHeld(env: Envelope, rows: map<Key, int>, targets: seq<int>, skip: bool)
    requires Aligned(env) && |targets| == |env.held| && MoveHolds(env, rows, targets, skip).Ok?
    ensures MoveHolds(env, rows, targets, skip).value.held == targets
  {
    MoveHoldsKeepsSlack(env.plan.tenant, env.plan.allowances, Holds(rows, env.held), targets, skip, 0);
    assert env.held[..0] + targets[0..] == targets;
  }

  lemma UsageCostNonNegative(usage: Option<Usage>, price: Option<PriceSchedule>)
    ensures UsageCost(usage, price).Cost? ==> UsageCost(usage, price).amount >= 0
  {
    if UsageCost(usage, price).Cost? && price.Some? {
      var terms := CategoriesTerms(Split(usage.value), price.value).terms;
      Cost.SumNonNegative(terms);
      CeilNonNegative(SumTerms(terms), MILLION);
    }
  }

  lemma DecisionIsNonNegative(env: Envelope, next: AttemptState, o: Report)
    ensures var t := Decide(env, next, o);
            && (t.actualCost.Some? ==> t.actualCost.value >= 0)
            && (t.evidence.usage.Some? && t.evidence.usage.value.total.Some?
                ==> t.evidence.usage.value.total.value >= 0)
  {
    UsageCostNonNegative(NormalizeUsage(o.usage).usage, env.price);
  }

  /** The settled row holds exactly the decided targets. */
  lemma FinalizeRow(s: State, o: Report, now: int)
    requires WellFormed(s) && Finalize(s, o, now).0 != s
    ensures var s' := Finalize(s, o, now).0;
            var id := AttemptId(o.tenant, o.attempt);
            && id in s.attempts && s'.attempts == s.attempts[id := s'.attempts[id]] && s'.archive == s.archive
            && RequestedState(o.state).Some?
            && TransitionTo(s.attempts[id].state, RequestedState(o.state).value) == Proceed
            && var env := Load(s.attempts[id].env);
               var t := Decide(env, RequestedState(o.state).value, o);
               && Aligned(env) && env.plan == s.attempts[id].env.plan && env.held == s.attempts[id].env.held
               && s'.attempts[id].env.plan == env.plan
               && s'.attempts[id].env.held == SettledTargets(env, t)
               && s'.attempts[id].state == t.next && s'.attempts[id].env.price == s.attempts[id].env.price
               && MoveHolds(env, s.allowances, SettledTargets(env, t), false).Ok? && s'.limits == s.limits
               && s'.allowances == MoveHolds(env, s.allowances, SettledTargets(env, t), false).value.rows
  {
    var id := AttemptId(o.tenant, o.attempt);
    var env := Load(s.attempts[id].env);
    LoadAligned(s.attempts[id].env);
    MovedHeld(env, s.allowances, SettledTargets(env, Decide(env, RequestedState(o.state).value, o)), false);
  }

  lemma ReconcileRow(s: State, tenant: string, authorized: bool, admission: string, expected: int,
                     body: Reconciliation, now: int)
    requires WellFormed(s) && Reconcile(s, tenant, authorized, admission, expected, body, now).0 != s
    ensures var s' := Reconcile(s, tenant, authorized, admission, expected, body, now).0;
            var id := AttemptId(tenant, admission);
            var r := body.(usage := NormalizeUsage(body.usage).usage);
            && id in s.attempts && s'.attempts == s.attempts[id := s'.attempts[id]] && s'.archive == s.archive
            && s.attempts[id].state == OutcomeUnknown == s'.attempts[id].state
            && CheckReconciliation(expected, body).None?
            && var env := Load(s.attempts[id].env);
               && Aligned(env) && env.plan == s.attempts[id].env.plan && env.held == s.attempts[id].env.held
               && !DecideCharge(env, r).Unavailable?
               && s'.attempts[id].env.plan == env.plan
               && s'.attempts[id].env.held == ReconciledTargets(env, DecideCharge(env, r), EvidenceTokens(r))
  {
    var id := AttemptId(tenant, admission);
    var r := body.(usage := NormalizeUsage(body.usage).usage);
    var env := Load(s.attempts[id].env);
    LoadAligned(s.attempts[id].env);
    MovedHeld(env, s.allowances, ReconciledTargets(env, DecideCharge(env, r), EvidenceTokens(r)), true);
  }

  lemma SweepOneRow(s: State, id: AttemptId, now: int)
    requires WellFormed(s) && SweepOne(s, id, now).Ok? && SweepOne(s, id, now).value != s
    ensures var s' := SweepOne(s, id, now).value;
            && id in s.attempts && Overdue(s.attempts[id], now)
            && s'.attempts == s.attempts[id := s'.attempts[id]] && s'.archive == s.archive
            && s'.attempts[id].env.plan == s.attempts[id].env.plan
            && s'.attempts[id].env.held == ReleaseTargets(s.attempts[id].env)
            && s'.attempts[id].state == OutcomeUnknown && s'.limits == s.limits
            && MoveHolds(s.attempts[id].env, s.allowances, ReleaseTargets(s.attempts[id].env), true).Ok?
            && s'.allowances == MoveHolds(s.attempts[id].env, s.allowances, ReleaseTargets(s.attempts[id].env),
                true).value.rows
  {
    var env := s.attempts[id].env;
    MovedHeld(env, s.allowances, ReleaseTargets(env), true);
  }

  lemma {:induction false} SweepRows(s: State, due: seq<AttemptId>, now: int)
    requires WellFormed(s) && Conserved(s) && SweepFrom(s, due, now).Ok?
    ensures var s' := SweepFrom(s, due, now).value;
            && s'.attempts.Keys == s.attempts.Keys && s'.archive == s.archive && RowsStep(s, s')
    decreases |due|
  {
    if due != [] {
      var s1 := SweepOne(s, due[0], now).value;
      if s1 != s {
        SweepOneRow(s, due[0], now);
        var env := s.attempts[due[0]].env;
        MovedConserves(s, s1, due[0], env, ReleaseTargets(env), true, s1.attempts[due[0]]);
      }
      assert RowsStep(s, s1);
      SweepRows(s1, due[1..], now);
      var s2 := SweepFrom(s, due, now).value;
      forall id | id in s.attempts ensures RowStep(s.attempts[id], s2.attempts[id]) {
        RowStepTransitive(s.attempts[id], s1.attempts[id], s2.attempts[id]);
      }
    }
  }

  lemma RowStepTransitive(a: Row, b: Row, c: Row)
    requires RowStep(a, b) && RowStep(b, c)
    ensures RowStep(a, c)
  {
  }

  /** Purging moves settled envelopes to the history and changes no remaining row. */
  ghost predicate Purges(s: State, s': State) {
    && s'.attempts.Keys <= s.attempts.Keys && s.archive <= s'.archive
    && (forall id | id in s'.attempts :: s'.attempts[id] == s.attempts[id])
    && (forall id | id in s.attempts && id !in s'.attempts ::
          s.attempts[id].state == Settled && s.attempts[id].env in s'.archive)
    && (forall e | e in s'.archive :: e in s.archive || exists id | id in s.attempts :: s.attempts[id].env == e)
  }

  lemma {:induction false} PurgeRows(s: State, settled: seq<AttemptId>, now: int)
    ensures Purges(s, PurgeFrom(s, settled, now))
    decreases |settled|
  {
    if settled != [] {
      var s1 := PurgeOne(s, settled[0], now);
      assert Purges(s, s1);
      PurgeRows(s1, settled[1..], now);
      PurgesTransitive(s, s1, PurgeFrom(s1, settled[1..], now));
    }
  }

  lemma PurgesTransitive(a: State, b: State, c: State)
    requires Purges(a, b) && Purges(b, c)
    ensures Purges(a, c)
  {
    forall id | id in a.attempts && id !in c.attempts ensures a.attempts[id].state == Settled
        && a.attempts[id].env in c.archive {
      if id !in b.attempts { assert a.attempts[id].env in b.archive; }
    }
  }

  /** A maintenance pass: rows evolve, and whatever leaves the table is in the history with its holds. */
  lemma MaintainRows(s: State, now: int, due: seq<AttemptId>, settled: seq<AttemptId>, effects: seq<EffectId>)
    requires WellFormed(s) && Conserved(s)
    ensures var s' := Maintain(s, now, due, settled, effects).0;
            && Evolves(s, s') && s'.attempts.Keys <= s.attempts.Keys
            && (forall id | id in s.attempts && id !in s'.attempts ::
                  exists e | e in s'.archive :: RowStep(s.attempts[id], s.attempts[id].(env := e)))
            && (forall e | e in s'.archive && e !in s.archive ::
                  exists id | id in s.attempts :: RowStep(s.attempts[id], s.attempts[id].(env := e)))
  {
    var swept := SweepFrom(s, due, now);
    if swept.Ok? {
      SweepConserves(s, due, now);
      SweepRows(s, due, now);
      PurgeRows(swept.value, settled, now);
      var purged := PurgeFrom(swept.value, settled, now);
      ExpireKeepsAccounting(purged, effects, now);
      var s' := Maintain(s, now, due, settled, effects).0;
      forall id | id in s.attempts && id !in s'.attempts
        ensures exists e | e in s'.archive :: RowStep(s.attempts[id], s.attempts[id].(env := e)) {
        assert RowStep(s.attempts[id], s.attempts[id].(env := swept.value.attempts[id].env));
      }
      forall e | e in s'.archive && e !in s.archive
        ensures exists id | id in s.attempts :: RowStep(s.attempts[id], s.attempts[id].(env := e)) {
        var id :| id in swept.value.attempts && swept.value.attempts[id].env == e;
        assert RowStep(s.attempts[id], s.attempts[id].(env := e));
      }
    }
  }

  lemma SettledEntrySteps(env: Envelope, next: AttemptState, o: Report)
    requires Aligned(env)
    ensures forall i | 0 <= i < |env.held| ::
              EntryStep(env.plan.allowances[i].kind, env.held[i], SettledTargets(env, Decide(env, next, o))[i])
  {
    DecisionIsNonNegative(env, next, o);
  }

  lemma FinalizeRows(s: State, o: Report, now: int)
    requires WellFormed(s)
    ensures InPlace(s, Finalize(s, o, now).0)
  {
    hide Finalize, Decide, SettledTargets, Load, MoveHolds;
    var s' := Finalize(s, o, now).0;
    if s' != s {
      FinalizeRow(s, o, now);
      SettledEntrySteps(Load(s.attempts[AttemptId(o.tenant, o.attempt)].env), RequestedState(o.state).value, o);
    }
  }

  lemma ReconciledTargetsNonNegative(env: Envelope, expected: int, body: Reconciliation)
    requires Aligned(env) && CheckReconciliation(expected, body).None?
    ensures var r := body.(usage := NormalizeUsage(body.usage).usage);
            !DecideCharge(env, r).Unavailable? ==>
              forall i | 0 <= i < |env.held| ::
                EntryStep(env.plan.allowances[i].kind, env.held[i],
                    ReconciledTargets(env, DecideCharge(env, r), EvidenceTokens(r))[i])
  {
  }

  lemma ReconcileRows(s: State, tenant: string, authorized: bool, admission: string, expected: int,
                      body: Reconciliation, now: int)
    requires WellFormed(s)
    ensures InPlace(s, Reconcile(s, tenant, authorized, admission, expected, body, now).0)
  {
    hide Reconcile, CheckReconciliation, DecideCharge, NormalizeUsage, EvidenceTokens, Load;
    var s' := Reconcile(s, tenant, authorized, admission, expected, body, now).0;
    if s' != s {
      ReconcileRow(s, tenant, authorized, admission, expected, body, now);
      ReconciledTargetsNonNegative(Load(s.attempts[AttemptId(tenant, admission)].env), expected, body);
    }
  }

  /** The new attempt of an admission: one entry per resolved allowance, nothing else touched. */
  lemma BeginRows(s: State, p: Plan, clock: Clock, scan: seq<Key>, approved: bool)
    requires WellFormed(s) && Conserved(s)
    ensures var s' := Begin(s, p, clock, scan, approved).0;
            var id := AttemptId(p.tenant, p.attempt);
            && s'.archive == s.archive
            && (s'.attempts == s.attempts
                || (&& id !in s.attempts && id in s'.attempts && s'.attempts == s.attempts[id := s'.attempts[id]]
                    && Derive(s, p, clock, scan, approved).Ok?
                    && var d := Derive(s, p, clock, scan, approved).value;
                       Admit(d.state, p.(allowances := d.allowances), p, clock.now) == Ok(s')))
  {
    var derived := Derive(s, p, clock, scan, approved);
    if derived.Ok? {
      DeriveConserves(s, p, clock, scan, approved);
    }
  }

  lemma AcceptRow(s: State, permit: Permit, evidence: string, now: int)
    requires WellFormed(s) && Accept(s, permit, evidence, now).0 != s
    ensures var s' := Accept(s, permit, evidence, now).0;
            var id := AttemptId(permit.tenant, permit.attempt);
            && id in s.attempts && s' == s.(attempts := s.attempts[id := s'.attempts[id]])
            && s.attempts[id].state == DispatchIntent && s'.attempts[id].state == Accepted
            && s'.attempts[id].env == Load(s.attempts[id].env).(acceptedEvidence := evidence, updatedAt := now)
  {
  }

  lemma AcceptRows(s: State, permit: Permit, evidence: string, now: int)
    requires WellFormed(s)
    ensures InPlace(s, Accept(s, permit, evidence, now).0)
  {
    hide Accept, Load;
    if Accept(s, permit, evidence, now).0 != s {
      AcceptRow(s, permit, evidence, now);
      LoadAligned(s.attempts[AttemptId(permit.tenant, permit.attempt)].env);
    }
  }

  /** How stored attempts evolve under any step. */
  lemma StepRows(s: State, step: Step)
    requires WellFormed(s) && Conserved(s)
    ensures Evolves(s, Apply(s, step))
    ensures !step.DoBegin? && !step.DoMaintain? ==> InPlace(s, Apply(s, step))
  {
    hide Begin, Accept, Finalize, Reconcile, Maintain;
    match step {
      case DoBegin(plan, clock, scan, approved) => BeginRows(s, plan, clock, scan, approved);
      case DoAccept(permit, evidence, now) => AcceptRows(s, permit, evidence, now);
      case DoFinalize(report, now) => FinalizeRows(s, report, now);
      case DoReconcile(tenant, authorized, admission, expected, body, now) =>
        ReconcileRows(s, tenant, authorized, admission, expected, body, now);
      case DoMaintain(now, due, settled, effects) => MaintainRows(s, now, due, settled, effects);
      case DoConfigure(limits, windows, models, config, counters) =>
    }
  }

  // --------------------------------------------------------- what is reserved

  /** An admitted entry holds its full amount, except a request already counted. */
  ghost predicate EntryReserved(p: Plan, seen: bool, a: Allowance, held: int) {
    && AmountOf(p, a).Ok?
    && held == (if seen && a.kind == RequestKind then 0 else AmountOf(p, a).value)
  }

  lemma {:induction false} ReserveEntries(s: State, p: Plan, now: int, seen: bool, h: Holds)
    requires |h.held| <= |p.allowances| && ReserveFrom(s, p, now, seen, h).Ok?
    requires forall i | 0 <= i < |h.held| :: EntryReserved(p, seen, p.allowances[i], h.held[i])
    ensures var held := ReserveFrom(s, p, now, seen, h).value.held;
            |held| == |p.allowances| && forall i | 0 <= i < |held| :: EntryReserved(p, seen, p.allowances[i], held[i])
    decreases |p.allowances| - |h.held|
  {
    if |h.held| < |p.allowances| {
      var a := p.allowances[|h.held|];
      var amount := ReserveOne(s, p, now, seen, a, h.rows).value;
      ReserveEntries(s, p, now, seen, Holds(AddHold(h.rows, KeyOf(p.tenant, a), amount), h.held + [amount]));
    }
  }

  /** Every resolved allowance reserves what its policy kind requires of the plan. */
  lemma {:induction false} ResolvedReserves(limits: map<Key, Limit>, p: Plan, clock: Clock, scan: seq<Key>, s: State,
                                            found: seq<Allowance>)
    requires ResolveFrom(limits, p, clock, scan, s, found).Ok?
    requires forall a | a in found :: Required(p, a.kind) == Ok(a.reserve)
    ensures forall a | a in ResolveFrom(limits, p, clock, scan, s, found).value.allowances ::
            Required(p, a.kind) == Ok(a.reserve)
    decreases |scan|
  {
    if scan != [] {
      if scan[0] !in limits || scan[0].tenant != p.tenant {
        ResolvedReserves(limits, p, clock, scan[1..], s, found);
      } else {
        var one := ResolveRow(s, p, clock, scan[0], limits[scan[0]]).value;
        ResolvedReserves(limits, p, clock, scan[1..], one.state, found + one.allowances);
      }
    }
  }

  /** The envelope a successful admission records. */
  lemma AdmittedEntries(s: State, p: Plan, clock: Clock, scan: seq<Key>, approved: bool)
    requires WellFormed(s) && Conserved(s)
    requires Begin(s, p, clock, scan, approved).0.attempts != s.attempts
    ensures var s' := Begin(s, p, clock, scan, approved).0;
            var id := AttemptId(p.tenant, p.attempt);
            && id !in s.attempts && id in s'.attempts && s'.attempts == s.attempts[id := s'.attempts[id]]
            && s'.archive == s.archive && s'.attempts[id].state == DispatchIntent
            && var env := s'.attempts[id].env;
               && Aligned(env) && env.plan == p.(allowances := env.plan.allowances)
               && env.price == PinnedPrice(s, p) && env.outcome.None? && env.chargedCost == 0 && !env.chargedCostKnown
               && (forall i | 0 <= i < |env.held| ::
                     && EntryReserved(env.plan, SeenRequest(s.attempts, p.tenant, p.request), env.plan.allowances[i],
                         env.held[i])
                     && Required(p, env.plan.allowances[i].kind) == Ok(env.plan.allowances[i].reserve))
  {
    BeginRows(s, p, clock, scan, approved);
    DeriveConserves(s, p, clock, scan, approved);
    var d := Derive(s, p, clock, scan, approved).value;
    var plan := p.(allowances := d.allowances);
    ResolvedReserves(s.limits, p, clock, scan, s, []);
    ReserveEntries(d.state, plan, clock.now, SeenRequest(s.attempts, p.tenant, p.request),
        Holds(d.state.allowances, []));
    forall i | 0 <= i < |d.allowances| ensures Required(p, d.allowances[i].kind) == Ok(d.allowances[i].reserve) {
      assert d.allowances[i] in d.allowances;
    }
  }

  // ------------------------------------------------------- non-negative holds

  ghost predicate NonNegative(s: State) {
    && (forall id | id in s.attempts :: NonNegativeHolds(s.attempts[id].env))
    && (forall e | e in s.archive :: NonNegativeHolds(e))
  }

  /** The cost bound a caller may submit. */
  ghost predicate SanePlan(p: Plan) { p.maximumCost.Some? ==> p.maximumCost.value >= 0 }

  ghost predicate SaneStep(step: Step) { step.DoBegin? ==> SanePlan(step.plan) }

  /** An admission records non-negative holds exactly when its cost entries carry a non-negative bound. */
  lemma AdmittedHoldsSign(s: State, p: Plan, clock: Clock, scan: seq<Key>, approved: bool)
    requires WellFormed(s) && Conserved(s)
    requires Begin(s, p, clock, scan, approved).0.attempts != s.attempts
    ensures var env := Begin(s, p, clock, scan, approved).0.attempts[AttemptId(p.tenant, p.attempt)].env;
            NonNegativeHolds(env) <==> SanePlan(p) || !HasKind(env.plan.allowances, CostKind)
  {
    AdmittedEntries(s, p, clock, scan, approved);
    var env := Begin(s, p, clock, scan, approved).0.attempts[AttemptId(p.tenant, p.attempt)].env;
    if !SanePlan(p) && HasKind(env.plan.allowances, CostKind) {
      var a :| a in env.plan.allowances && a.kind == CostKind;
      var i :| 0 <= i < |env.plan.allowances| && env.plan.allowances[i] == a;
      assert env.held[i] < 0;
    }
  }

  lemma RowStepKeepsSign(before: Row, after: Row)
    requires RowStep(before, after) && NonNegativeHolds(before.env)
    ensures NonNegativeHolds(after.env)
  {
    forall i | 0 <= i < |after.env.held| ensures after.env.held[i] >= 0 {
      assert EntryStep(before.env.plan.allowances[i].kind, before.env.held[i], after.env.held[i]);
    }
  }

  lemma MaintainKeepsSign(s: State, now: int, due: seq<AttemptId>, settled: seq<AttemptId>, effects: seq<EffectId>)
    requires WellFormed(s) && Conserved(s) && NonNegative(s)
    ensures NonNegative(Maintain(s, now, due, settled, effects).0)
  {
    hide Maintain, Conserved;
    MaintainRows(s, now, due, settled, effects);
    var s' := Maintain(s, now, due, settled, effects).0;
    forall id | id in s'.attempts ensures NonNegativeHolds(s'.attempts[id].env) {
      RowStepKeepsSign(s.attempts[id], s'.attempts[id]);
    }
    forall e | e in s'.archive ensures NonNegativeHolds(e) {
      if e !in s.archive {
        var id :| id in s.attempts && RowStep(s.attempts[id], s.attempts[id].(env := e));
        RowStepKeepsSign(s.attempts[id], s.attempts[id].(env := e));
      }
    }
  }

  lemma BeginKeepsSign(s: State, p: Plan, clock: Clock, scan: seq<Key>, approved: bool)
    requires WellFormed(s) && Conserved(s) && NonNegative(s) && SanePlan(p)
    ensures NonNegative(Begin(s, p, clock, scan, approved).0)
  {
    hide Begin, Conserved;
    BeginRows(s, p, clock, scan, approved);
    if Begin(s, p, clock, scan, approved).0.attempts != s.attempts {
      AdmittedHoldsSign(s, p, clock, scan, approved);
    }
  }

  lemma StepKeepsSign(s: State, step: Step)
    requires WellFormed(s) && Conserved(s) && NonNegative(s) && SaneStep(step)
    ensures NonNegative(Apply(s, step))
  {
    hide Begin, Accept, Finalize, Reconcile, Maintain, Configure, Conserved, WellFormed;
    if step.DoMaintain? {
      MaintainKeepsSign(s, step.now, step.due, step.settled, step.effects);
    } else if step.DoBegin? {
      BeginKeepsSign(s, step.plan, step.clock, step.scan, step.approved);
    } else {
      StepRows(s, step);
      var s' := Apply(s, step);
      forall id | id in s'.attempts ensures NonNegativeHolds(s'.attempts[id].env) {
        RowStepKeepsSign(s.attempts[id], s'.attempts[id]);
      }
    }
  }

  ghost predicate Sound(s: State) { WellFormed(s) && Conserved(s) && NonNegative(s) }

  /** Every state reached with non-negative cost bounds is sound. */
  lemma {:induction false} RunIsSound(s: State, steps: seq<Step>)
    requires Initial(s) && forall i | 0 <= i < |steps| :: SaneStep(steps[i])
    ensures Sound(Run(s, steps))
    decreases |steps|
  {
    RunConserves(s, steps);
    if steps != [] {
      RunIsSound(s, steps[..|steps| - 1]);
      StepKeepsSign(Run(s, steps[..|steps| - 1]), steps[|steps| - 1]);
    }
  }

  // -------------------------------------------------------- releases never fail

  /** A counter holds at least what any one attempt holds on it. */
  lemma CounterCovers(s: State, id: AttemptId, k: Key)
    requires Sound(s) && id in s.attempts
    ensures Reserved(s.allowances, k) >= EnvHold(s.attempts[id].env, k) >= 0
  {
    forall j | j in s.attempts ensures RowHold(k)(s.attempts[j]) >= 0 {
      HeldOnNonNegative(s.attempts[j].env.plan.tenant, s.attempts[j].env.plan.allowances, s.attempts[j].env.held, k);
    }
    forall e | e in s.archive ensures ArchivedHold(k)(e) >= 0 {
      HeldOnNonNegative(e.plan.tenant, e.plan.allowances, e.held, k);
    }
    SumAtLeast(s.attempts, id, RowHold(k));
    SumSeqNonNegative(s.archive, ArchivedHold(k));
  }

  lemma MovesNeverShort(s: State, id: AttemptId, env: Envelope, targets: seq<int>, skip: bool)
    requires Sound(s) && id in s.attempts
    requires env.plan == s.attempts[id].env.plan && env.held == s.attempts[id].env.held
    requires |targets| == |env.held| && forall i | 0 <= i < |targets| :: targets[i] >= 0
    ensures var r := MoveHolds(env, s.allowances, targets, skip);
            r.Fail? ==> r.error == AllowanceOverflow && exists i :: 0 <= i < |targets| && targets[i] > env.held[i]
  {
    forall k ensures Reserved(s.allowances, k) >= HeldOn(env.plan.tenant, env.plan.allowances, env.held, k) {
      CounterCovers(s, id, k);
    }
    MoveHoldsNeverShort(env.plan.tenant, env.plan.allowances, Holds(s.allowances, env.held), targets, skip, 0);
  }

  /** A settlement moves some entry above what it holds. */
  ghost predicate RaisesHold(env: Envelope, o: Report) {
    && RequestedState(o.state).Some? && Aligned(Load(env))
    && exists i | 0 <= i < |Load(env).held| ::
         SettledTarget(env.plan.allowances[i].kind, Load(env).held[i],
             Decide(Load(env), RequestedState(o.state).value, o))
         > Load(env).held[i]
  }

  /**
   The refusals of a settlement: the caller's mistakes, or a move above the hold
   of some entry whose counter row is missing or would leave int64.
   */
  lemma SettlementNeverBlocked(s: State, o: Report, now: int)
    requires Sound(s)
    ensures Finalize(s, o, now).1 in {None, Some(IdentityRequired), Some(NotFound), Some(Conflict), Some(InvalidState),
                                      Some(AlreadySettled), Some(AllowanceOverflow)}
    ensures Finalize(s, o, now).1 == Some(AllowanceOverflow) ==>
              AttemptId(o.tenant, o.attempt) in s.attempts
                  && RaisesHold(s.attempts[AttemptId(o.tenant, o.attempt)].env, o)
  {
    var id := AttemptId(o.tenant, o.attempt);
    if id in s.attempts && RequestedState(o.state).Some? {
      var env := Load(s.attempts[id].env);
      LoadAligned(s.attempts[id].env);
      DecisionIsNonNegative(env, RequestedState(o.state).value, o);
      assert NonNegativeHolds(s.attempts[id].env);
      MovesNeverShort(s, id, env, SettledTargets(env, Decide(env, RequestedState(o.state).value, o)), false);
    }
  }

  /**
   Reconciliation is refused by an allowance only when it moves a hold up and that
   counter row is missing or would leave int64.
   */
  lemma ReconciliationNeverBlocked(s: State, tenant: string, authorized: bool, admission: string, expected: int,
                                   body: Reconciliation, now: int)
    requires Sound(s)
    ensures var r := Reconcile(s, tenant, authorized, admission, expected, body, now).1;
            r.Fail? ==> r.error != AllowanceChanged && r.error != InvalidHold && r.error != QuotaExceeded
  {
    var id := AttemptId(tenant, admission);
    if id in s.attempts && CheckReconciliation(expected, body).None? {
      var r := body.(usage := NormalizeUsage(body.usage).usage);
      var env := Load(s.attempts[id].env);
      LoadAligned(s.attempts[id].env);
      assert NonNegativeHolds(s.attempts[id].env);
      if !DecideCharge(env, r).Unavailable? {
        MovesNeverShort(s, id, env, ReconciledTargets(env, DecideCharge(env, r), EvidenceTokens(r)), true);
      }
    }
  }

  lemma {:induction false} SweepNeverBlocked(s: State, due: seq<AttemptId>, now: int)
    requires Sound(s)
    ensures SweepFrom(s, due, now).Ok?
    decreases |due|
  {
    if due != [] {
      if due[0] in s.attempts && Overdue(s.attempts[due[0]], now) {
        var env := s.attempts[due[0]].env;
        assert NonNegativeHolds(env);
        MovesNeverShort(s, due[0], env, ReleaseTargets(env), true);
        var s1 := SweepOne(s, due[0], now).value;
        MovedConserves(s, s1, due[0], env, ReleaseTargets(env), true, s1.attempts[due[0]]);
        MovedHeld(env, s.allowances, ReleaseTargets(env), true);
      }
      SweepNeverBlocked(SweepOne(s, due[0], now).value, due[1..], now);
    }
  }

  /** A maintenance pass always completes. */
  lemma MaintenanceNeverBlocked(s: State, now: int, due: seq<AttemptId>, settled: seq<AttemptId>,
                                effects: seq<EffectId>)
    requires Sound(s)
    ensures Maintain(s, now, due, settled, effects).1 == None
  {
    SweepNeverBlocked(s, due, now);
  }
}
