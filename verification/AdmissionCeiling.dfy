/**
 The budget is a ceiling: without reconciliation, lowered limits or
 caller-supplied costs, and with reports inside the admitted bounds, no hold is
 ever raised and no counter passes its policy maximum.
 */
module AdmissionCeiling {
  import opened Basics
  import opened Cost
  import opened AdmissionModel
  import opened AdmissionInvariant
  import opened AdmissionSafety

  // ------------------------------------------------------------------- premises

  /** The plan's cost bound was computed from token rates, not from a unit price. */
  ghost predicate TokenPriced(s: State, p: Plan) {
    p.maximumCost.Some? ==>
      && p.maximumCost.value >= 0
      && (PinnedPrice(s, p).Some? ==>
            p.inputBound.Some? && p.outputBound.Some? && PlanBound(p, PinnedPrice(s, p).value).Cost?)
  }

  ghost predicate AtMost(reported: Option<Int64>, bound: Option<Int64>) {
    reported.Some? && bound.Some? ==> reported.value <= bound.value
  }

  /**
   Reported input and output are within the plan's bounds; a total reported
   without both parts is within their sum.
   */
  ghost predicate UsageWithin(u: Usage, p: Plan) {
    && AtMost(u.input, p.inputBound) && AtMost(u.output, p.outputBound)
    && (u.total.Some? && (u.input.None? || u.output.None?) && p.inputBound.Some? && p.outputBound.Some? ==>
          u.total.value <= p.inputBound.value + p.outputBound.value)
  }

  ghost predicate NotLowered(before: map<Key, Limit>, after: map<Key, Limit>) {
    forall k | k in before :: k in after && before[k].maximum <= after[k].maximum
  }

  ghost predicate CeilingStep(s: State, step: Step) {
    match step
    case DoBegin(plan, _, _, _) => TokenPriced(s, plan)
    case DoAccept(_, _, _) => true
    case DoFinalize(o, _) =>
      && o.actualCost.None?
      && (o.usage.Some? && AttemptId(o.tenant, o.attempt) in s.attempts ==>
            UsageWithin(o.usage.value, s.attempts[AttemptId(o.tenant, o.attempt)].env.plan))
    case DoReconcile(_, _, _, _, _, _) => false
    case DoMaintain(_, _, _, _) => true
    case DoConfigure(limits, _, _, _, _) => NotLowered(s.limits, limits)
  }

  ghost predicate CeilingRun(s: State, steps: seq<Step>)
    decreases |steps|
  {
    steps == []
    || (CeilingRun(s, steps[..|steps| - 1]) && CeilingStep(Run(s, steps[..|steps| - 1]), steps[|steps| - 1]))
  }

  // ------------------------------------------------------------------ invariant

  predicate Live(state: AttemptState) { state == DispatchIntent || state == Accepted || state == JobPending }

  /** The entry still holds the whole bound it was admitted with. */
  ghost predicate EntryCovered(env: Envelope, kind: Kind, held: int) {
    && (kind == CostKind ==>
          && env.plan.maximumCost == Some(held)
          && (env.price.Some? ==>
                && env.plan.inputBound.Some? && env.plan.outputBound.Some?
                && PlanBound(env.plan, env.price.value) == CostResult.Cost(held)))
    && (kind == TokenKind ==>
          && env.plan.inputBound.Some? && env.plan.outputBound.Some?
          && held == env.plan.inputBound.value + env.plan.outputBound.value)
  }

  ghost predicate Covered(s: State) {
    forall id | id in s.attempts && Live(s.attempts[id].state) ::
      forall i | 0 <= i < |s.attempts[id].env.held| && i < |s.attempts[id].env.plan.allowances| ::
        EntryCovered(s.attempts[id].env, s.attempts[id].env.plan.allowances[i].kind, s.attempts[id].env.held[i])
  }

  /** No counter is above its policy maximum, and a counter in use has one. */
  ghost predicate Under(rows: map<Key, int>, limits: map<Key, Limit>) {
    forall k :: Reserved(rows, k) > 0 ==> k in limits && Reserved(rows, k) <= limits[k].maximum
  }

  ghost predicate Ceiling(s: State) { Sound(s) && Covered(s) && Under(s.allowances, s.limits) }

  /** Every entry stored before and after holds no more than before. */
  ghost predicate NoneRaised(s: State, s': State) {
    forall id | id in s.attempts && id in s'.attempts ::
      && |s'.attempts[id].env.held| == |s.attempts[id].env.held|
      && forall i | 0 <= i < |s.attempts[id].env.held| :: s'.attempts[id].env.held[i] <= s.attempts[id].env.held[i]
  }

  // ------------------------------------------------------------------ admission

  lemma {:induction false} ReserveStaysUnder(s: State, p: Plan, now: int, seen: bool, h: Holds)
    requires |h.held| <= |p.allowances| && ReserveFrom(s, p, now, seen, h).Ok? && Under(h.rows, s.limits)
    ensures Under(ReserveFrom(s, p, now, seen, h).value.rows, s.limits)
    decreases |p.allowances| - |h.held|
  {
    if |h.held| < |p.allowances| {
      var a := p.allowances[|h.held|];
      var amount := ReserveOne(s, p, now, seen, a, h.rows).value;
      ReserveStaysUnder(s, p, now, seen, Holds(AddHold(h.rows, KeyOf(p.tenant, a), amount), h.held + [amount]));
    }
  }

  /** A stored bound that came from token rates is the bound of those rates. */
  lemma CheckedBound(s: State, p: Plan, now: int, approved: bool)
    requires CheckPlan(s, p, now, approved).None? && TokenPriced(s, p)
    ensures p.maximumCost.Some? && PinnedPrice(s, p).Some? ==>
              PlanBound(p, PinnedPrice(s, p).value) == CostResult.Cost(p.maximumCost.value)
  {
  }

  lemma DerivedIsChecked(s: State, p: Plan, clock: Clock, scan: seq<Key>, approved: bool)
    requires Begin(s, p, clock, scan, approved).0.attempts != s.attempts
    ensures CheckPlan(s, p, clock.now, approved).None?
  {
  }

  lemma DerivedStaysUnder(s: State, p: Plan, clock: Clock, scan: seq<Key>, approved: bool)
    requires Under(s.allowances, s.limits) && Derive(s, p, clock, scan, approved).Ok?
    ensures var s' := Derive(s, p, clock, scan, approved).value.state; Under(s'.allowances, s'.limits)
  {
    ResolveKeepsAccounting(s.limits, p, clock, scan, s, []);
  }

  lemma AdmitStaysUnder(s: State, p: Plan, submitted: Plan, now: int)
    requires Under(s.allowances, s.limits) && Admit(s, p, submitted, now).Ok?
    ensures var s' := Admit(s, p, submitted, now).value; Under(s'.allowances, s'.limits)
  {
    ReserveStaysUnder(s, p, now, SeenRequest(s.attempts, p.tenant, p.request), Holds(s.allowances, []));
  }

  lemma BeginStaysUnder(s: State, p: Plan, clock: Clock, scan: seq<Key>, approved: bool)
    requires Under(s.allowances, s.limits)
    ensures var s' := Begin(s, p, clock, scan, approved).0; Under(s'.allowances, s'.limits)
  {
    hide Derive, Admit, Under;
    var derived := Derive(s, p, clock, scan, approved);
    if derived.Ok? {
      DerivedStaysUnder(s, p, clock, scan, approved);
      var plan := p.(allowances := derived.value.allowances);
      if Admit(derived.value.state, plan, p, clock.now).Ok? {
        AdmitStaysUnder(derived.value.state, plan, p, clock.now);
      }
    }
  }

  lemma BeginStaysCovered(s: State, p: Plan, clock: Clock, scan: seq<Key>, approved: bool)
    requires Sound(s) && Covered(s) && TokenPriced(s, p)
    ensures Covered(Begin(s, p, clock, scan, approved).0)
    ensures NoneRaised(s, Begin(s, p, clock, scan, approved).0)
  {
    hide Conserved, SeenRequest, BoundCost, AmountOf, Required, Begin;
    BeginRows(s, p, clock, scan, approved);
    var s' := Begin(s, p, clock, scan, approved).0;
    if s'.attempts != s.attempts {
      AdmittedEntries(s, p, clock, scan, approved);
      DerivedIsChecked(s, p, clock, scan, approved);
      CheckedBound(s, p, clock.now, approved);
      var env := s'.attempts[AttemptId(p.tenant, p.attempt)].env;
      forall i | 0 <= i < |env.held| ensures EntryCovered(env, env.plan.allowances[i].kind, env.held[i]) {
        AdmittedEntryCovered(env, i, SeenRequest(s.attempts, p.tenant, p.request));
      }
    }
  }

  lemma AdmittedEntryCovered(env: Envelope, i: nat, seen: bool)
    requires i < |env.held| == |env.plan.allowances|
    requires EntryReserved(env.plan, seen, env.plan.allowances[i], env.held[i])
    requires env.plan.maximumCost.Some? && env.price.Some? ==>
               && env.plan.inputBound.Some? && env.plan.outputBound.Some?
               && PlanBound(env.plan, env.price.value) == CostResult.Cost(env.plan.maximumCost.value)
    ensures EntryCovered(env, env.plan.allowances[i].kind, env.held[i])
  {
  }

  // ----------------------------------------------------------------- settlement

  lemma {:induction false} MoveHoldsLowers(tenant: string, entries: seq<Allowance>, h: Holds, targets: seq<int>,
                                           skip: bool, i: nat, limits: map<Key, Limit>)
    requires |h.held| == |targets| == |entries| && i <= |targets|
    requires forall j | i <= j < |targets| :: targets[j] <= h.held[j]
    requires MoveHoldsFrom(tenant, entries, h, targets, skip, i).Ok? && Under(h.rows, limits)
    ensures Under(MoveHoldsFrom(tenant, entries, h, targets, skip, i).value.rows, limits)
    decreases |targets| - i
  {
    if i == |targets| {
    } else if skip && targets[i] == h.held[i] {
      MoveHoldsLowers(tenant, entries, h, targets, skip, i + 1, limits);
    } else {
      var rows := MoveHold(h.rows, KeyOf(tenant, entries[i]), entries[i].maximum, h.held[i], targets[i],
          targets[i] > h.held[i]).value;
      MoveHoldsLowers(tenant, entries, Holds(rows, h.held[i := targets[i]]), targets, skip, i + 1, limits);
    }
  }

  /** The estimate for a report inside the bounds is at most the reserved cost. */
  lemma EstimateWithinHold(env: Envelope, o: Report, held: int)
    requires EntryCovered(env, CostKind, held) && held >= 0
    requires o.usage.Some? ==> UsageWithin(o.usage.value, env.plan)
    ensures EstimateFor(o, env.price).Cost? ==> EstimateFor(o, env.price).amount <= held
  {
    var usage := NormalizeUsage(o.usage).usage;
    if EstimateFor(o, env.price).Cost? && env.price.Some? {
      assert usage.value.input == o.usage.value.input && usage.value.output == o.usage.value.output;
      ChargeWithinReservation(env.plan.inputBound.value, env.plan.outputBound.value, env.price.value, usage.value);
    }
  }

  /** A settlement inside the bounds asks for no more than each entry holds. */
  lemma TargetWithinHold(env: Envelope, next: AttemptState, o: Report, i: nat)
    requires Aligned(env) && i < |env.held| && env.held[i] >= 0
    requires EntryCovered(env, env.plan.allowances[i].kind, env.held[i])
    requires o.actualCost.None? && (o.usage.Some? ==> UsageWithin(o.usage.value, env.plan))
    ensures SettledTargets(env, Decide(env, next, o))[i] <= env.held[i]
  {
    if env.plan.allowances[i].kind == CostKind {
      EstimateWithinHold(env, o, env.held[i]);
    }
  }

  /**
   With input and output inside their bounds, the only report that raises a token
   hold is a usable one whose total, given without both parts, passes their sum.
   */
  lemma TokenHoldRaised(env: Envelope, next: AttemptState, o: Report, held: int)
    requires EntryCovered(env, TokenKind, held) && held >= 0 && next in {Settled, OutcomeUnknown} && o.usage.Some?
    requires AtMost(o.usage.value.input, env.plan.inputBound) && AtMost(o.usage.value.output, env.plan.outputBound)
    ensures SettledTarget(TokenKind, held, Decide(env, next, o)) > held
       <==> !NegativeCounter(o.usage.value) && !UsageWithin(o.usage.value, env.plan)
  {
    hide UsageCost, HasKind;
    assert NormalizeUsage(o.usage).valid <==> !NegativeCounter(o.usage.value) && !Negative(o.usage.value.total);
  }

  lemma FinalizeTargetsWithin(s: State, o: Report, id: AttemptId, env: Envelope, next: AttemptState)
    requires Ceiling(s) && CeilingStep(s, DoFinalize(o, 0)) && id == AttemptId(o.tenant, o.attempt) && id in s.attempts
    requires env == Load(s.attempts[id].env) && Aligned(env) && env.plan == s.attempts[id].env.plan
             && env.held == s.attempts[id].env.held
    requires Live(s.attempts[id].state)
    ensures forall i | 0 <= i < |env.held| :: SettledTargets(env, Decide(env, next, o))[i] <= env.held[i]
  {
    hide Conserved, Decide, SettledTargets, WellFormed, Load;
    LoadKeepsPrice(s.attempts[id].env);
    assert NonNegativeHolds(s.attempts[id].env);
    forall i | 0 <= i < |env.held| ensures SettledTargets(env, Decide(env, next, o))[i] <= env.held[i] {
      assert EntryCovered(s.attempts[id].env, env.plan.allowances[i].kind, env.held[i]);
      TargetWithinHold(env, next, o, i);
    }
  }

  lemma FinalizeStaysUnder(s: State, o: Report, now: int)
    requires Ceiling(s) && CeilingStep(s, DoFinalize(o, now))
    ensures var s' := Finalize(s, o, now).0;
            Under(s'.allowances, s'.limits) && Covered(s') && NoneRaised(s, s')
  {
    hide Conserved, Finalize, Decide, SettledTargets, Load, NonNegative, WellFormed;
    var s' := Finalize(s, o, now).0;
    if s' != s {
      FinalizeRow(s, o, now);
      var id := AttemptId(o.tenant, o.attempt);
      var env := Load(s.attempts[id].env);
      var t := Decide(env, RequestedState(o.state).value, o);
      FinalizeTargetsWithin(s, o, id, env, RequestedState(o.state).value);
      MoveHoldsLowers(env.plan.tenant, env.plan.allowances, Holds(s.allowances, env.held), SettledTargets(env, t),
          false, 0, s.limits);
      LiveOnlyPending(env, t);
      SettledIsNotWaiting(env, RequestedState(o.state).value, o);
    }
  }

  lemma SettledIsNotWaiting(env: Envelope, next: AttemptState, o: Report)
    requires next != DispatchIntent && next != Accepted
    ensures Decide(env, next, o).next != DispatchIntent && Decide(env, next, o).next != Accepted
  {
  }

  /** A settlement that leaves the attempt live moves no cost or token hold. */
  lemma LiveOnlyPending(env: Envelope, t: Settlement)
    requires Aligned(env)
    ensures t.next == JobPending ==>
              forall i | 0 <= i < |env.held| && env.plan.allowances[i].kind in {CostKind, TokenKind} ::
                SettledTargets(env, t)[i] == env.held[i]
  {
  }

  // ---------------------------------------------------------------- maintenance

  lemma {:induction false} SweepStaysUnder(s: State, due: seq<AttemptId>, now: int)
    requires Ceiling(s) && SweepFrom(s, due, now).Ok?
    ensures var s' := SweepFrom(s, due, now).value;
            && Under(s'.allowances, s'.limits) && s'.limits == s.limits && Covered(s') && NoneRaised(s, s')
    decreases |due|
  {
    if due != [] {
      var s1 := SweepOne(s, due[0], now).value;
      if s1 != s {
        SweepOneStaysUnder(s, due[0], now);
      }
      SweepStaysUnder(s1, due[1..], now);
      SweepRows(s1, due[1..], now);
    }
  }

  lemma ReleaseLowers(env: Envelope)
    requires Aligned(env)
    ensures forall i | 0 <= i < |env.held| :: ReleaseTargets(env)[i] <= env.held[i]
  {
  }

  lemma SweepOneSound(s: State, id: AttemptId, now: int)
    requires Sound(s) && SweepOne(s, id, now).Ok? && SweepOne(s, id, now).value != s
    ensures Sound(SweepOne(s, id, now).value)
  {
    hide SweepOne;
    var s' := SweepOne(s, id, now).value;
    SweepOneRow(s, id, now);
    var env := s.attempts[id].env;
    assert NonNegativeHolds(env);
    MovedHeld(env, s.allowances, ReleaseTargets(env), true);
    MovedConserves(s, s', id, env, ReleaseTargets(env), true, s'.attempts[id]);
  }

  lemma SweepOneStaysUnder(s: State, id: AttemptId, now: int)
    requires Ceiling(s) && SweepOne(s, id, now).Ok? && SweepOne(s, id, now).value != s
    ensures var s' := SweepOne(s, id, now).value;
            && Ceiling(s') && s'.limits == s.limits && NoneRaised(s, s') && s'.attempts.Keys == s.attempts.Keys
  {
    hide SweepOne, Conserved, NonNegative, ReleaseTargets;
    SweepOneRow(s, id, now);
    SweepOneSound(s, id, now);
    var env := s.attempts[id].env;
    ReleaseLowers(env);
    MoveHoldsLowers(env.plan.tenant, env.plan.allowances, Holds(s.allowances, env.held), ReleaseTargets(env), true, 0,
        s.limits);
  }

  lemma MaintainStaysUnder(s: State, now: int, due: seq<AttemptId>, settled: seq<AttemptId>, effects: seq<EffectId>)
    requires Ceiling(s)
    ensures var s' := Maintain(s, now, due, settled, effects).0;
            && Under(s'.allowances, s'.limits) && Covered(s') && NoneRaised(s, s')
  {
    hide Conserved;
    var swept := SweepFrom(s, due, now);
    if swept.Ok? {
      SweepStaysUnder(s, due, now);
      SweepRows(s, due, now);
      PurgeRows(swept.value, settled, now);
      PurgeKeepsCounters(swept.value, settled, now);
      ExpireKeepsAccounting(PurgeFrom(swept.value, settled, now), effects, now);
    }
  }

  lemma {:induction false} PurgeKeepsCounters(s: State, settled: seq<AttemptId>, now: int)
    ensures var s' := PurgeFrom(s, settled, now); s' == s.(attempts := s'.attempts, archive := s'.archive)
    decreases |settled|
  {
    if settled != [] {
      PurgeKeepsCounters(PurgeOne(s, settled[0], now), settled[1..], now);
    }
  }

  // ----------------------------------------------------------------------- runs

  lemma AcceptStaysUnder(s: State, permit: Permit, evidence: string, now: int)
    requires Ceiling(s)
    ensures var s' := Accept(s, permit, evidence, now).0;
            && Under(s'.allowances, s'.limits) && Covered(s') && NoneRaised(s, s')
  {
    hide Accept, Load, Conserved;
    if Accept(s, permit, evidence, now).0 != s {
      AcceptRow(s, permit, evidence, now);
      var id := AttemptId(permit.tenant, permit.attempt);
      LoadAligned(s.attempts[id].env);
      LoadKeepsPrice(s.attempts[id].env);
    }
  }

  lemma LoadKeepsPrice(env: Envelope)
    ensures Load(env).price == env.price
  {
  }

  lemma StepStaysUnder(s: State, step: Step)
    requires Ceiling(s) && CeilingStep(s, step)
    ensures Ceiling(Apply(s, step)) && NoneRaised(s, Apply(s, step))
  {
    hide Begin, Accept, Finalize, Reconcile, Maintain, Conserved, WellFormed, NonNegative, Covered;
    StepConserves(s, step);
    StepKeepsSign(s, step);
    match step {
      case DoBegin(plan, clock, scan, approved) =>
        BeginStaysUnder(s, plan, clock, scan, approved);
        BeginStaysCovered(s, plan, clock, scan, approved);
      case DoAccept(permit, evidence, now) => AcceptStaysUnder(s, permit, evidence, now);
      case DoFinalize(o, now) => FinalizeStaysUnder(s, o, now);
      case DoMaintain(now, due, settled, effects) => MaintainStaysUnder(s, now, due, settled, effects);
      case DoConfigure(limits, windows, models, config, counters) =>
          ConfigureStaysUnder(s, limits, windows, models, config, counters);
    }
  }

  lemma ConfigureStaysUnder(s: State, limits: map<Key, Limit>, windows: map<WindowKey, Window>,
                            models: map<ModelKey, Model>, config: int, counters: set<Key>)
    requires Ceiling(s) && NotLowered(s.limits, limits)
    ensures var s' := Configure(s, limits, windows, models, config, counters);
            Under(s'.allowances, s'.limits) && Covered(s') && NoneRaised(s, s')
  {
    var s' := Configure(s, limits, windows, models, config, counters);
    assert forall k :: Reserved(s'.allowances, k) == Reserved(s.allowances, k);
  }

  /**
   In every such run, every counter stays within its policy maximum and no step
   of the run raised a hold.
   */
  lemma {:induction false} BudgetIsCeiling(s: State, steps: seq<Step>)
    requires Initial(s) && CeilingRun(s, steps)
    ensures Ceiling(Run(s, steps))
    ensures forall n | 0 <= n < |steps| :: NoneRaised(Run(s, steps[..n]), Run(s, steps[..n + 1]))
    decreases |steps|
  {
    if steps == [] {
      RunIsSound(s, steps);
    } else {
      var m := |steps| - 1;
      BudgetIsCeiling(s, steps[..m]);
      StepStaysUnder(Run(s, steps[..m]), steps[m]);
      forall n | 0 <= n < |steps| ensures NoneRaised(Run(s, steps[..n]), Run(s, steps[..n + 1])) {
        if n < m {
          assert steps[..m][..n] == steps[..n] && steps[..m][..n + 1] == steps[..n + 1];
        } else {
          assert steps[..n + 1] == steps;
        }
      }
    }
  }
}
