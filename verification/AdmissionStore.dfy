/**
 The store itself: the tables as fields that its methods update row by row. Each
 method is one transaction; whatever it wrote is restored when it is refused.
 */
module AdmissionStore {
  import opened Basics
  import opened Cost
  import opened AdmissionModel

  class Store {
    var allowances: map<Key, int>
    var attempts: map<AttemptId, Row>
    var ledger: map<EffectId, Effect>
    var reconciliations: map<ReconciliationId, Reconciled>
    var limits: map<Key, Limit>
    var windows: map<WindowKey, Window>
    var models: map<ModelKey, Model>
    var config: int
    ghost var archive: seq<Envelope>
    ghost var expired: seq<Effect>

    ghost function View(): (s: State)
      reads this
    {
      State(allowances, attempts, ledger, reconciliations, limits, windows, models, config, archive, expired)
    }

    constructor ()
      ensures Initial(View())
    {
      allowances, attempts, ledger, reconciliations := map[], map[], map[], map[];
      limits, windows, models, config := map[], map[], map[], 0;
      archive, expired := [], [];
    }

    // --------------------------------------------------------------- admission

    method CheckSubmitted(p: Plan, now: int, approved: bool) returns (e: Option<Error>)
      ensures e == CheckPlan(View(), p, now, approved)
    {
      var invalid := ValidatePlan(p);
      if invalid.Some? { return invalid; }
      if p.deadline.value <= now { return Some(DeadlineExceeded); }
      if !approved { return Some(NotApproved); }
      if config < 0 || p.configRevision < 0 || config != p.configRevision { return Some(ConfigurationStale); }
      if p.model == "" { return None; }
      if ModelKey(p.tenant, p.model) !in models { return Some(InvalidTarget); }
      var m := models[ModelKey(p.tenant, p.model)];
      var bound := Err(UnknownCost);
      if m.price.Some? {
        bound := EstimateBound(OrZero(p.inputBound), OrZero(p.outputBound), m.price);
      }
      return CheckModel(p, m, bound);
    }

    /** Scans the tenant's policy rows, creating the rows of windows that roll forward. */
    method ResolveAllowances(p: Plan, clock: Clock, scan: seq<Key>) returns (r: Answer<seq<Allowance>>)
      modifies `allowances, `limits, `windows
      ensures match ResolveFrom(old(limits), p, clock, scan, old(View()), [])
              case Ok(resolved) => r == Ok(resolved.allowances) && View() == resolved.state
              case Fail(e) => r == Fail(e)
    {
      var configured := limits;
      var found := [];
      ghost var goal := ResolveFrom(configured, p, clock, scan, View(), found);
      for i := 0 to |scan|
        invariant goal == ResolveFrom(configured, p, clock, scan[i..], View(), found)
        invariant unchanged(`attempts, `ledger, `reconciliations, `models, `config, `archive, `expired)
      {
        var k := scan[i];
        assert scan[i..][0] == k && scan[i..][1..] == scan[i + 1..];
        if k in configured && k.tenant == p.tenant {
          var limit := configured[k];
          if ScopeMatches(k, p) && limit.maximum > 0 {
            var active := WindowActive(windows, p.tenant, k.window, clock);
            var window := k.window;
            if !active && k.window in clock.current {
              var current := clock.current[k.window];
              window, active := current.id, true;
              windows := windows[WindowKey(k.tenant, current.id) := current.window];
              var k' := k.(window := current.id);
              if k' !in limits { limits := limits[k' := limit]; }
              if k' !in allowances { allowances := allowances[k' := 0]; }
            }
            if active {
              var required := Required(p, k.kind);
              if required.Fail? { return Fail(required.error); }
              found := found + [Allowance(k.scopeKind, k.scopeId, window, k.kind, limit.maximum, required.value)];
            } else {
              assert found + [] == found;
            }
          } else {
            assert found + [] == found;
          }
        }
      }
      return Ok(found);
    }

    /** Reserves one entry: the guarded update of its shared counter, or nothing for an entry that is skipped. */
    method ReserveEntry(p: Plan, now: int, seen: bool, a: Allowance) returns (r: Answer<Int64>)
      modifies `allowances
      ensures r == ReserveOne(old(View()), p, now, seen, a, old(allowances))
      ensures r.Ok? ==> allowances == AddHold(old(allowances), KeyOf(p.tenant, a), r.value)
    {
      var k := KeyOf(p.tenant, a);
      var asked := AmountOf(p, a);
      if asked.Fail? { return asked; }
      var amount := asked.value;
      if amount == 0 || (seen && a.kind == RequestKind) { return Ok(0); }
      if k !in limits { return Fail(ConfigurationStale); }
      var policyMax := limits[k].maximum;
      if a.maximum <= 0 || policyMax <= 0 || a.maximum > policyMax || amount > policyMax { return Fail(QuotaExceeded); }
      if a.window != "total" {
        if WindowKey(p.tenant, a.window) !in windows { return Fail(QuotaExceeded); }
        var w := windows[WindowKey(p.tenant, a.window)];
        if now < w.starts || now >= w.ends { return Fail(QuotaExceeded); }
      }
      if k !in allowances || allowances[k] + amount > a.maximum { return Fail(QuotaExceeded); }
      allowances := allowances[k := allowances[k] + amount];
      return Ok(amount);
    }

    /** Reserves the entries of a plan one after another; stops at the first refusal. */
    method Reserve(p: Plan, now: int) returns (r: Answer<seq<int>>)
      modifies `allowances
      ensures match ReserveFrom(old(View()), p, now, SeenRequest(attempts, p.tenant, p.request),
              Holds(old(allowances), []))
              case Ok(h) => r == Ok(h.held) && allowances == h.rows
              case Fail(e) => r == Fail(e)
    {
      hide AmountOf, SeenRequest, AddHold;
      var seen := SeenRequest(attempts, p.tenant, p.request);
      var held: seq<int> := [];
      ghost var s := View();
      ghost var goal := ReserveFrom(s, p, now, seen, Holds(allowances, []));
      for i := 0 to |p.allowances|
        invariant |held| == i && View() == s.(allowances := allowances)
        invariant goal == ReserveFrom(s, p, now, seen, Holds(allowances, held))
      {
        var reserved := ReserveEntry(p, now, seen, p.allowances[i]);
        if reserved.Fail? { return Fail(reserved.error); }
        held := held + [reserved.value];
      }
      return Ok(held);
    }

    method BeginAttempt(submitted: Plan, clock: Clock, scan: seq<Key>, approved: bool) returns (r: Answer<Permit>)
      modifies this
      ensures (View(), r) == Begin(old(View()), submitted, clock, scan, approved)
    {
      var invalid := CheckSubmitted(submitted, clock.now, approved);
      if invalid.Some? { return Fail(invalid.value); }
      var allowances0, limits0, windows0 := allowances, limits, windows;
      var resolved := ResolveAllowances(submitted, clock, scan);
      if resolved.Fail? {
        allowances, limits, windows := allowances0, limits0, windows0;
        return Fail(resolved.error);
      }
      var p := submitted.(allowances := resolved.value);
      var id := AttemptId(p.tenant, p.attempt);
      if id in attempts {
        var row := attempts[id];
        if !SameAttempt(row.env.submitted, submitted) {
          allowances, limits, windows := allowances0, limits0, windows0;
          return Fail(Conflict);
        }
        if row.state == DispatchIntent || row.state == Accepted {
          return Ok(Permit(p.tenant, p.request, p.attempt, row.env.plan.configRevision));
        }
        allowances, limits, windows := allowances0, limits0, windows0;
        return Fail(AlreadySettled);
      }
      var held := Reserve(p, clock.now);
      if held.Fail? {
        allowances, limits, windows := allowances0, limits0, windows0;
        return Fail(held.error);
      }
      var price := None;
      if p.model != "" && ModelKey(p.tenant, p.model) in models {
        price := models[ModelKey(p.tenant, p.model)].price;
      }
      attempts := attempts[id := NewRow(p, submitted, held.value, clock.now, price, config)];
      return Ok(Permit(p.tenant, p.request, p.attempt, config));
    }

    // -------------------------------------------------------------- settlement

    /** One guarded update of a shared counter: the difference is applied, never an absolute value. */
    method AdjustHold(k: Key, maximum: int, current: int, target: int, overrun: bool) returns (e: Option<Error>)
      modifies `allowances
      ensures match MoveHold(old(allowances), k, maximum, current, target, overrun)
              case Ok(rows) => e == None && allowances == rows
              case Fail(error) => e == Some(error)
    {
      if target < 0 { return Some(InvalidHold); }
      if target == current { return None; }
      if target < current {
        var delta := current - target;
        if k !in allowances || allowances[k] < delta { return Some(AllowanceChanged); }
        allowances := allowances[k := allowances[k] - delta];
        return None;
      }
      var delta := target - current;
      if overrun {
        if k !in allowances || allowances[k] > MAX_INT64 - delta { return Some(AllowanceOverflow); }
      } else {
        if maximum < delta { return Some(QuotaExceeded); }
        if k !in allowances || allowances[k] > maximum - delta { return Some(QuotaExceeded); }
      }
      allowances := allowances[k := allowances[k] + delta];
      return None;
    }

    /** Moves every hold to what the settlement leaves of it. */
    method SettleHolds(env: Envelope, t: Settlement) returns (r: Answer<seq<int>>)
      requires |env.held| == |env.plan.allowances|
      modifies `allowances
      ensures match MoveHolds(env, old(allowances), SettledTargets(env, t), false)
              case Ok(h) => r == Ok(h.held) && allowances == h.rows
              case Fail(e) => r == Fail(e)
    {
      var held := env.held;
      ghost var targets := SettledTargets(env, t);
      ghost var goal := MoveHolds(env, allowances, targets, false);
      for i := 0 to |env.plan.allowances|
        invariant |held| == |env.held|
        invariant forall j | i <= j < |held| :: held[j] == env.held[j]
        invariant goal == MoveHoldsFrom(env.plan.tenant, env.plan.allowances, Holds(allowances, held), targets, false,
                  i)
      {
        var a := env.plan.allowances[i];
        var target := SettledTarget(a.kind, held[i], t);
        var e := AdjustHold(KeyOf(env.plan.tenant, a), a.maximum, held[i], target, target > held[i]);
        if e.Some? { return Fail(e.value); }
        held := held[i := target];
      }
      return Ok(held);
    }

    /** Writes the charge, at most once, and the settled row. */
    method WriteSettlement(id: AttemptId, row: Row, loaded: Envelope, t: Settlement, o: Report, held: seq<int>,
                           now: int)
      modifies `ledger, `attempts
      ensures View() == RecordSettlement(old(View()), id, row, loaded, t, o, Holds(allowances, held), now)
    {
      var env := loaded;
      if Charges(env, t) {
        var effect := ChargeEffect(id, t.actualCost.value, now);
        if effect.id !in ledger { ledger := ledger[effect.id := effect]; }
        env := env.(chargedCost := t.actualCost.value, chargedCostKnown := true);
      }
      env := env.(held := held, updatedAt := now,
                  outcome := Some(o.(state := Named(t.next), usage := t.evidence.usage, actualCost := t.actualCost)));
      attempts := attempts[id := Row(t.next, row.version + 1, env)];
    }

    method FinalizeAttempt(o: Report, now: int) returns (e: Option<Error>)
      modifies this
      ensures (View(), e) == Finalize(old(View()), o, now)
    {
      hide MoveHolds, Load, NormalizeUsage, Settle, SettledTargets, RequestedState, TransitionTo, Charges, HasKind;
      var id := AttemptId(o.tenant, o.attempt);
      if o.tenant == "" || o.attempt == "" { return Some(IdentityRequired); }
      if id !in attempts { return Some(NotFound); }
      var row := attempts[id];
      var env := Load(row.env);
      if env.plan.tenant != o.tenant || env.plan.attempt != o.attempt || env.plan.request == "" {
        return Some(Conflict);
      }
      if o.request != "" && o.request != env.plan.request { return Some(Conflict); }
      var requested := RequestedState(o.state);
      if requested.None? { return Some(InvalidState); }
      match TransitionTo(row.state, requested.value) {
        case Replay => return None;
        case Refuse => return Some(AlreadySettled);
        case Proceed =>
      }
      if |env.held| != |env.plan.allowances| { return Some(InvalidHold); }
      var estimate := EstimateUsageCost(NormalizeUsage(o.usage).usage, env.price);
      var t := Settle(requested.value, o, estimate, HasKind(env.plan.allowances, CostKind),
          HasKind(env.plan.allowances, TokenKind));
      var allowances0 := allowances;
      var held := SettleHolds(env, t);
      if held.Fail? {
        allowances := allowances0;
        return Some(held.error);
      }
      WriteSettlement(id, row, env, t, o, held.value, now);
      return None;
    }

    method MarkAccepted(permit: Permit, evidence: string, now: int) returns (e: Option<Error>)
      modifies `attempts
      ensures (View(), e) == Accept(old(View()), permit, evidence, now)
    {
      var id := AttemptId(permit.tenant, permit.attempt);
      if permit.tenant == "" || permit.attempt == "" || evidence == "" { return Some(EvidenceRequired); }
      if id !in attempts { return Some(NotFound); }
      var row := attempts[id];
      var env := Load(row.env);
      if env.plan.tenant != permit.tenant || env.plan.attempt != permit.attempt || env.plan.request == "" {
        return Some(Conflict);
      }
      if row.state == Accepted { return if env.acceptedEvidence == evidence then None else Some(Conflict); }
      if row.state != DispatchIntent { return Some(NotDispatchable); }
      if permit.request != "" && permit.request != env.plan.request { return Some(Conflict); }
      attempts := attempts[id := Row(Accepted, row.version + 1, env.(acceptedEvidence := evidence, updatedAt := now))];
      return None;
    }

    // ---------------------------------------------------------- reconciliation

    method LargestMaximum(entries: seq<Allowance>) returns (largest: Option<Int64>)
      ensures largest == LargestCostMaximum(entries)
    {
      largest := None;
      for i := 0 to |entries|
        invariant largest == LargestCostMaximum(entries[..i])
      {
        assert entries[..i + 1][..i] == entries[..i];
        if entries[i].kind == CostKind && (largest.None? || entries[i].maximum > largest.value) {
          largest := Some(entries[i].maximum);
        }
      }
      assert entries[..|entries|] == entries;
    }

    /** Moves the holds a reconciliation corrects, passing over the others. */
    method CorrectHolds(env: Envelope, charge: Charge, tokens: Option<Int64>) returns (r: Answer<seq<int>>)
      requires |env.held| == |env.plan.allowances|
      modifies `allowances
      ensures match MoveHolds(env, old(allowances), ReconciledTargets(env, charge, tokens), true)
              case Ok(h) => r == Ok(h.held) && allowances == h.rows
              case Fail(e) => r == Fail(e)
    {
      var held := env.held;
      ghost var targets := ReconciledTargets(env, charge, tokens);
      ghost var goal := MoveHolds(env, allowances, targets, true);
      for i := 0 to |env.plan.allowances|
        invariant |held| == |env.held|
        invariant forall j | i <= j < |held| :: held[j] == env.held[j]
        invariant goal == MoveHoldsFrom(env.plan.tenant, env.plan.allowances, Holds(allowances, held), targets, true, i)
      {
        var a := env.plan.allowances[i];
        var target := ReconciledTarget(a.kind, held[i], charge, tokens);
        if target != held[i] {
          var e := AdjustHold(KeyOf(env.plan.tenant, a), a.maximum, held[i], target, target > held[i]);
          if e.Some? { return Fail(e.value); }
          held := held[i := target];
        }
      }
      return Ok(held);
    }

    /** Writes the ledger difference, the corrected row and the result that later replays return. */
    method WriteReconciliation(id: AttemptId, row: Row, loaded: Envelope, request: ReconcileRequest, r: Reconciliation,
                               charge: Charge, held: seq<int>, now: int) returns (result: ReconcileResult)
      modifies `ledger, `attempts, `reconciliations
      ensures (View(), result)
              == RecordReconciliation(old(View()), id, row, loaded, request, r, charge, Holds(allowances, held), now)
    {
      var known := charge.Known?;
      var delta := if known then Some(charge.amount - loaded.chargedCost) else None;
      var effect := ReconcileEffect(id, r, delta, now);
      ledger := ledger[effect.id := effect];
      result := ReconcileResult(r, id.attempt, row.version + 1, row.state, if known then Some(charge.amount) else None,
          delta);
      var outcome := if loaded.outcome.Some? then loaded.outcome.value
                     else Report(id.tenant, loaded.plan.request, id.attempt, Named(row.state), None, None);
      var env := loaded.(held := held, reconciled := true, updatedAt := now);
      if known {
        env := env.(chargedCost := charge.amount, chargedCostKnown := true);
        outcome := outcome.(actualCost := Some(charge.amount));
      }
      if r.mode == ProviderEvidence {
        env := env.(acceptedEvidence := r.sourceReference);
        if r.usage.Some? { outcome := outcome.(usage := r.usage); }
      }
      attempts := attempts[id := Row(row.state, row.version + 1, env.(outcome := Some(outcome)))];
      reconciliations := reconciliations[ReconciliationId(id.tenant, r.id) := Reconciled(request, result)];
    }

    method Reconcile(tenant: string, authorized: bool, admission: string, expected: int, body: Reconciliation, now: int)
      returns (out: Answer<ReconcileResult>)
      modifies this
      ensures (View(), out) == AdmissionModel.Reconcile(old(View()), tenant, authorized, admission, expected, body, now)
    {
      hide MoveHolds, Load, NormalizeUsage, CheckReconciliation, ReconciledTargets, Blank, ChooseCharge, EvidenceTokens;
      var request := ReconcileRequest(admission, expected, body);
      var rid := ReconciliationId(tenant, body.id);
      var id := AttemptId(tenant, admission);
      if Blank(body.id) || Blank(admission) { return Fail(InvalidReconciliation); }
      if !authorized { return Fail(NotApproved); }
      if rid in reconciliations {
        return if reconciliations[rid].request == request then Ok(reconciliations[rid].result) else Fail(Conflict);
      }
      var invalid := CheckReconciliation(expected, body);
      if invalid.Some? { return Fail(invalid.value); }
      if id !in attempts { return Fail(NotFound); }
      var r := body.(usage := NormalizeUsage(body.usage).usage);
      var row := attempts[id];
      var env := Load(row.env);
      if env.plan.tenant != tenant || env.plan.attempt != admission || env.plan.request == "" { return Fail(Conflict); }
      if row.version != expected { return Fail(VersionConflict); }
      if row.version == MAX_INT64 { return Fail(VersionExhausted); }
      if row.state != OutcomeUnknown { return Fail(NotReconcilable); }
      if |env.held| != |env.plan.allowances| { return Fail(InvalidHold); }
      var estimate := EstimateUsageCost(r.usage, env.price);
      var largest := LargestMaximum(env.plan.allowances);
      var charge := ChooseCharge(env, r, estimate, largest);
      if charge.Unavailable? { return Fail(MaximumUnavailable); }
      var allowances0 := allowances;
      var moved := CorrectHolds(env, charge, EvidenceTokens(r));
      if moved.Fail? {
        allowances := allowances0;
        return Fail(moved.error);
      }
      if env.chargedCost < 0 {
        allowances := allowances0;
        return Fail(InvalidAccounting);
      }
      if ReconcileEffect(id, r, None, now).id in ledger {
        allowances := allowances0;
        return Fail(LedgerConflict);
      }
      var result := WriteReconciliation(id, row, env, request, r, charge, moved.value, now);
      return Ok(result);
    }

    // ------------------------------------------------------------- maintenance

    /** Releases the concurrency holds of one overdue attempt. */
    method ReleaseConcurrency(env: Envelope) returns (r: Answer<seq<int>>)
      requires |env.held| == |env.plan.allowances|
      modifies `allowances
      ensures match MoveHolds(env, old(allowances), ReleaseTargets(env), true)
              case Ok(h) => r == Ok(h.held) && allowances == h.rows
              case Fail(e) => r == Fail(e)
    {
      var held := env.held;
      ghost var goal := MoveHolds(env, allowances, ReleaseTargets(env), true);
      for i := 0 to |env.plan.allowances|
        invariant |held| == |env.held|
        invariant forall j | i <= j < |held| :: held[j] == env.held[j]
        invariant goal == MoveHoldsFrom(env.plan.tenant, env.plan.allowances, Holds(allowances, held),
                  ReleaseTargets(env), true, i)
      {
        var a := env.plan.allowances[i];
        if a.kind == ConcurrencyKind && held[i] > 0 {
          var e := AdjustHold(KeyOf(env.plan.tenant, a), a.maximum, held[i], 0, false);
          if e.Some? { return Fail(e.value); }
          held := held[i := 0];
        }
      }
      return Ok(held);
    }

    method Sweep(due: seq<AttemptId>, now: int) returns (e: Option<Error>)
      modifies `allowances, `attempts
      ensures match SweepFrom(old(View()), due, now)
              case Ok(s) => e == None && View() == s
              case Fail(error) => e == Some(error)
    {
      ghost var goal := SweepFrom(View(), due, now);
      for i := 0 to |due|
        invariant goal == SweepFrom(View(), due[i..], now)
        invariant unchanged(`ledger, `reconciliations, `limits, `windows, `models, `config, `archive, `expired)
      {
        var id := due[i];
        assert due[i..][0] == id && due[i..][1..] == due[i + 1..];
        if id in attempts && Overdue(attempts[id], now) {
          var row := attempts[id];
          if |row.env.held| != |row.env.plan.allowances| { return Some(InvalidHold); }
          var released := ReleaseConcurrency(row.env);
          if released.Fail? { return Some(released.error); }
          var env := row.env.(held := released.value, concurrencyReleased := true, updatedAt := now);
          attempts := attempts[id := Row(OutcomeUnknown, row.version + 1, env)];
        }
      }
      return None;
    }

    /** Deletes settled attempts past their retention. */
    method Purge(settled: seq<AttemptId>, now: int)
      modifies `attempts, `archive
      ensures View() == PurgeFrom(old(View()), settled, now)
    {
      ghost var goal := PurgeFrom(View(), settled, now);
      for i := 0 to |settled|
        invariant goal == PurgeFrom(View(), settled[i..], now)
        invariant unchanged(`allowances, `ledger, `reconciliations, `limits, `windows, `models, `config, `expired)
      {
        var id := settled[i];
        assert settled[i..][0] == id && settled[i..][1..] == settled[i + 1..];
        if id in attempts && Purgeable(attempts[id], now) {
          archive := archive + [attempts[id].env];
          attempts := attempts - {id};
        }
      }
    }

    /** Deletes expired ledger rows; reconciliation effects are kept. */
    method Expire(effects: seq<EffectId>, now: int)
      modifies `ledger, `expired
      ensures View() == ExpireFrom(old(View()), effects, now)
    {
      ghost var goal := ExpireFrom(View(), effects, now);
      for i := 0 to |effects|
        invariant goal == ExpireFrom(View(), effects[i..], now)
        invariant unchanged(`allowances, `attempts, `reconciliations, `limits, `windows, `models, `config, `archive)
      {
        var id := effects[i];
        assert effects[i..][0] == id && effects[i..][1..] == effects[i + 1..];
        if id in ledger && EffectExpired(ledger[id], now) {
          expired := expired + [ledger[id]];
          ledger := ledger - {id};
        }
      }
    }

    method RunMaintenance(now: int, due: seq<AttemptId>, settled: seq<AttemptId>, effects: seq<EffectId>)
      returns (e: Option<Error>)
      modifies this
      ensures (View(), e) == Maintain(old(View()), now, due, settled, effects)
    {
      var allowances0, attempts0 := allowances, attempts;
      e := Sweep(due, now);
      if e.Some? {
        allowances, attempts := allowances0, attempts0;
        return;
      }
      Purge(settled, now);
      Expire(effects, now);
    }
  }
}
