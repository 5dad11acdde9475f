/**
 Conservation over whole runs: every allowance counter equals the sum of the
 holds on it, entry by entry, over all attempts ever recorded.
 */
module AdmissionInvariant {
  import opened Sums
  import opened AdmissionModel

  // ------------------------------------------------------- holds of an attempt

  ghost function Reserved(rows: map<Key, int>, k: Key): int {
    if k in rows then rows[k] else 0
  }

  /** The holds on one counter, summed over the allowance entries that name it. */
  ghost function HeldOn(tenant: string, entries: seq<Allowance>, held: seq<int>, k: Key): int
    requires |held| <= |entries|
  {
    if held == [] then 0
    else
      var i := |held| - 1;
      HeldOn(tenant, entries, held[..i], k) + (if KeyOf(tenant, entries[i]) == k then held[i] else 0)
  }

  ghost function EnvHold(env: Envelope, k: Key): int {
    if |env.held| <= |env.plan.allowances| then HeldOn(env.plan.tenant, env.plan.allowances, env.held, k) else 0
  }

  ghost function RowHold(k: Key): Row -> int { (r: Row) => EnvHold(r.env, k) }
  ghost function ArchivedHold(k: Key): Envelope -> int { (e: Envelope) => EnvHold(e, k) }

  /** All holds on a counter: of the stored attempts and of those retention removed. */
  ghost function TotalHeld(s: State, k: Key): int {
    Sum(s.attempts, RowHold(k)) + SumSeq(s.archive, ArchivedHold(k))
  }

  ghost predicate Aligned(env: Envelope) { |env.held| == |env.plan.allowances| }
  ghost predicate NonNegativeHolds(env: Envelope) { forall i | 0 <= i < |env.held| :: env.held[i] >= 0 }

  ghost predicate WellFormed(s: State) {
    && (forall id | id in s.attempts ::
          Aligned(s.attempts[id].env)
              && id == AttemptId(s.attempts[id].env.plan.tenant, s.attempts[id].env.plan.attempt))
    && (forall e | e in s.archive :: Aligned(e))
  }

  ghost predicate Conserved(s: State) {
    forall k :: Reserved(s.allowances, k) == TotalHeld(s, k)
  }

  // --------------------------------------------------------- moving one hold

  lemma {:induction false} HeldOnUpdate(tenant: string, entries: seq<Allowance>, held: seq<int>, i: nat, v: int, k: Key)
    requires i < |held| <= |entries|
    ensures HeldOn(tenant, entries, held[i := v], k)
         == HeldOn(tenant, entries, held, k) + (if KeyOf(tenant, entries[i]) == k then v - held[i] else 0)
  {
    var n := |held| - 1;
    if i == n {
      assert held[i := v][..n] == held[..n];
    } else {
      assert held[i := v][..n] == held[..n][i := v];
      HeldOnUpdate(tenant, entries, held[..n], i, v, k);
    }
  }

  lemma {:induction false} HeldOnNonNegative(tenant: string, entries: seq<Allowance>, held: seq<int>, k: Key)
    requires |held| <= |entries| && forall i | 0 <= i < |held| :: held[i] >= 0
    ensures HeldOn(tenant, entries, held, k) >= 0
    ensures forall i | 0 <= i < |held| && KeyOf(tenant, entries[i]) == k :: held[i] <= HeldOn(tenant, entries, held, k)
  {
    if held != [] {
      HeldOnNonNegative(tenant, entries, held[..|held| - 1], k);
      forall i | 0 <= i < |held| && KeyOf(tenant, entries[i]) == k
        ensures held[i] <= HeldOn(tenant, entries, held, k)
      {
        if i < |held| - 1 { assert held[..|held| - 1][i] == held[i]; }
      }
    }
  }

  /** The part of every counter that belongs to other attempts. */
  ghost predicate SameSlack(tenant: string, entries: seq<Allowance>, h1: Holds, h2: Holds)
    requires |h1.held| <= |entries| && |h2.held| <= |entries|
  {
    forall k :: Reserved(h2.rows, k) - HeldOn(tenant, entries, h2.held, k)
             == Reserved(h1.rows, k) - HeldOn(tenant, entries, h1.held, k)
  }

  /** Moving holds changes each counter by exactly this attempt's own difference. */
  lemma {:induction false} MoveHoldsKeepsSlack(tenant: string, entries: seq<Allowance>, h: Holds, targets: seq<int>,
                                               skip: bool, i: nat)
    requires |h.held| == |targets| == |entries| && i <= |targets|
    requires MoveHoldsFrom(tenant, entries, h, targets, skip, i).Ok?
    ensures var h' := MoveHoldsFrom(tenant, entries, h, targets, skip, i).value;
            h'.held == h.held[..i] + targets[i..] && SameSlack(tenant, entries, h, h')
    decreases |targets| - i
  {
    if i == |targets| {
    } else if skip && targets[i] == h.held[i] {
      MoveHoldsKeepsSlack(tenant, entries, h, targets, skip, i + 1);
      assert h.held[..i + 1] + targets[i + 1..] == h.held[..i] + targets[i..];
    } else {
      var key := KeyOf(tenant, entries[i]);
      var rows := MoveHold(h.rows, key, entries[i].maximum, h.held[i], targets[i], targets[i] > h.held[i]).value;
      var h1 := Holds(rows, h.held[i := targets[i]]);
      forall k ensures Reserved(h1.rows, k) - HeldOn(tenant, entries, h1.held, k)
                    == Reserved(h.rows, k) - HeldOn(tenant, entries, h.held, k) {
        HeldOnUpdate(tenant, entries, h.held, i, targets[i], k);
      }
      MoveHoldsKeepsSlack(tenant, entries, h1, targets, skip, i + 1);
      assert h1.held[..i + 1] + targets[i + 1..] == h.held[..i] + targets[i..];
    }
  }

  /**
   Releases never fail: with non-negative holds contained in their counters, no
   downward movement is refused; the only possible refusal is an upward one that
   would leave int64 or that has no counter row.
   */
  lemma {:induction false} MoveHoldsNeverShort(tenant: string, entries: seq<Allowance>, h: Holds, targets: seq<int>,
                                               skip: bool, i: nat)
    requires |h.held| == |targets| == |entries| && i <= |targets|
    requires forall j | 0 <= j < |targets| :: h.held[j] >= 0 && targets[j] >= 0
    requires forall k :: Reserved(h.rows, k) >= HeldOn(tenant, entries, h.held, k)
    ensures var r := MoveHoldsFrom(tenant, entries, h, targets, skip, i);
            r.Fail? ==> r.error == AllowanceOverflow && exists j :: i <= j < |targets| && targets[j] > h.held[j]
    decreases |targets| - i
  {
    if i == |targets| {
    } else if skip && targets[i] == h.held[i] {
      MoveHoldsNeverShort(tenant, entries, h, targets, skip, i + 1);
    } else {
      var key := KeyOf(tenant, entries[i]);
      HeldOnNonNegative(tenant, entries, h.held, key);
      var moved := MoveHold(h.rows, key, entries[i].maximum, h.held[i], targets[i], targets[i] > h.held[i]);
      if moved.Ok? {
        var h1 := Holds(moved.value, h.held[i := targets[i]]);
        forall k ensures Reserved(h1.rows, k) >= HeldOn(tenant, entries, h1.held, k) {
          HeldOnUpdate(tenant, entries, h.held, i, targets[i], k);
        }
        MoveHoldsNeverShort(tenant, entries, h1, targets, skip, i + 1);
      }
    }
  }

  /** Reserving adds exactly the new entries' amounts to the counters. */
  lemma {:induction false} ReserveKeepsSlack(s: State, p: Plan, now: int, seen: bool, h: Holds)
    requires |h.held| <= |p.allowances|
    requires ReserveFrom(s, p, now, seen, h).Ok?
    ensures var h' := ReserveFrom(s, p, now, seen, h).value;
            && |h'.held| == |p.allowances| && h.held <= h'.held
            && SameSlack(p.tenant, p.allowances, h, h')
    decreases |p.allowances| - |h.held|
  {
    if |h.held| < |p.allowances| {
      var a := p.allowances[|h.held|];
      var amount := ReserveOne(s, p, now, seen, a, h.rows).value;
      var h1 := Holds(AddHold(h.rows, KeyOf(p.tenant, a), amount), h.held + [amount]);
      assert h1.held[..|h.held|] == h.held;
      ReserveKeepsSlack(s, p, now, seen, h1);
    }
  }

  // ---------------------------------------------------------- conserving steps

  /** Replacing one stored attempt by one that moved its own holds conserves. */
  lemma UpdateConserves(s: State, s': State, id: AttemptId, rows: map<Key, int>, row: Row)
    requires WellFormed(s) && Conserved(s)
    requires id in s.attempts && Aligned(row.env)
    requires row.env.plan == s.attempts[id].env.plan
    requires s'.allowances == rows && s'.attempts == s.attempts[id := row] && s'.archive == s.archive
    requires SameSlack(row.env.plan.tenant, row.env.plan.allowances,
                       Holds(s.allowances, s.attempts[id].env.held), Holds(rows, row.env.held))
    ensures WellFormed(s') && Conserved(s')
  {
    forall k ensures Reserved(s'.allowances, k) == TotalHeld(s', k) {
      SumUpdate(s.attempts, id, row, RowHold(k));
    }
  }

  lemma MovedConserves(s: State, s': State, id: AttemptId, env: Envelope, targets: seq<int>, skip: bool, row: Row)
    requires WellFormed(s) && Conserved(s)
    requires id in s.attempts && env.plan == s.attempts[id].env.plan && env.held == s.attempts[id].env.held
    requires |targets| == |env.held| && MoveHolds(env, s.allowances, targets, skip).Ok?
    requires row.env.plan == env.plan && row.env.held == MoveHolds(env, s.allowances, targets, skip).value.held
    requires s'.allowances == MoveHolds(env, s.allowances, targets, skip).value.rows
    requires s'.attempts == s.attempts[id := row] && s'.archive == s.archive
    ensures WellFormed(s') && Conserved(s')
  {
    MoveHoldsKeepsSlack(env.plan.tenant, env.plan.allowances, Holds(s.allowances, env.held), targets, skip, 0);
    UpdateConserves(s, s', id, s'.allowances, row);
  }

  lemma LoadAligned(env: Envelope)
    requires Aligned(env)
    ensures Load(env).held == env.held && Load(env).plan == env.plan && Load(env).chargedCost == env.chargedCost
  {
  }

  /** Rows added by a rolled-forward window start at zero and replace nothing. */
  ghost predicate OnlyAddsZeros(before: map<Key, int>, after: map<Key, int>) {
    forall k :: Reserved(after, k) == Reserved(before, k)
  }

  /** What resolving policy rows may touch: counters at zero, new limits and windows. */
  ghost predicate Extends(s: State, s': State) {
    && OnlyAddsZeros(s.allowances, s'.allowances)
    && s' == s.(allowances := s'.allowances, limits := s'.limits, windows := s'.windows)
    && (forall k | k in s.limits :: k in s'.limits && s'.limits[k] == s.limits[k])
    && (forall k | k in s.allowances :: k in s'.allowances)
  }

  lemma ResolveRowExtends(s: State, p: Plan, clock: Clock, k: Key, limit: Limit)
    requires ResolveRow(s, p, clock, k, limit).Ok?
    ensures Extends(s, ResolveRow(s, p, clock, k, limit).value.state)
  {
  }

  lemma {:induction false} ResolveKeepsAccounting(limits: map<Key, Limit>, p: Plan, clock: Clock, scan: seq<Key>,
                                                  s: State, found: seq<Allowance>)
    requires ResolveFrom(limits, p, clock, scan, s, found).Ok?
    ensures Extends(s, ResolveFrom(limits, p, clock, scan, s, found).value.state)
    decreases |scan|
  {
    if scan != [] {
      if scan[0] !in limits || scan[0].tenant != p.tenant {
        ResolveKeepsAccounting(limits, p, clock, scan[1..], s, found);
      } else {
        var one := ResolveRow(s, p, clock, scan[0], limits[scan[0]]).value;
        ResolveRowExtends(s, p, clock, scan[0], limits[scan[0]]);
        ResolveKeepsAccounting(limits, p, clock, scan[1..], one.state, found + one.allowances);
      }
    }
  }

  lemma AdmitConserves(s: State, p: Plan, submitted: Plan, now: int)
    requires WellFormed(s) && Conserved(s) && AttemptId(p.tenant, p.attempt) !in s.attempts
    requires Admit(s, p, submitted, now).Ok?
    ensures WellFormed(Admit(s, p, submitted, now).value) && Conserved(Admit(s, p, submitted, now).value)
  {
    var s' := Admit(s, p, submitted, now).value;
    var id := AttemptId(p.tenant, p.attempt);
    ReserveKeepsSlack(s, p, now, SeenRequest(s.attempts, p.tenant, p.request), Holds(s.allowances, []));
    forall k ensures Reserved(s'.allowances, k) == TotalHeld(s', k) {
      SumUpdate(s.attempts, id, s'.attempts[id], RowHold(k));
    }
  }

  lemma DeriveConserves(s: State, p: Plan, clock: Clock, scan: seq<Key>, approved: bool)
    requires WellFormed(s) && Conserved(s) && Derive(s, p, clock, scan, approved).Ok?
    ensures var s' := Derive(s, p, clock, scan, approved).value.state;
            && WellFormed(s') && Conserved(s')
            && s' == s.(allowances := s'.allowances, limits := s'.limits, windows := s'.windows)
  {
    ResolveKeepsAccounting(s.limits, p, clock, scan, s, []);
    var s' := Derive(s, p, clock, scan, approved).value.state;
    assert forall k :: TotalHeld(s', k) == TotalHeld(s, k);
  }

  lemma BeginConserves(s: State, p: Plan, clock: Clock, scan: seq<Key>, approved: bool)
    requires WellFormed(s) && Conserved(s)
    ensures WellFormed(Begin(s, p, clock, scan, approved).0) && Conserved(Begin(s, p, clock, scan, approved).0)
  {
    var derived := Derive(s, p, clock, scan, approved);
    if derived.Ok? {
      DeriveConserves(s, p, clock, scan, approved);
      var plan := p.(allowances := derived.value.allowances);
      if AttemptId(p.tenant, p.attempt) !in s.attempts && Admit(derived.value.state, plan, p, clock.now).Ok? {
        AdmitConserves(derived.value.state, plan, p, clock.now);
      }
    }
  }

  lemma AcceptConserves(s: State, permit: Permit, evidence: string, now: int)
    requires WellFormed(s) && Conserved(s)
    ensures WellFormed(Accept(s, permit, evidence, now).0) && Conserved(Accept(s, permit, evidence, now).0)
  {
    var s' := Accept(s, permit, evidence, now).0;
    var id := AttemptId(permit.tenant, permit.attempt);
    if s' != s {
      LoadAligned(s.attempts[id].env);
      UpdateConserves(s, s', id, s.allowances, s'.attempts[id]);
    }
  }

  lemma FinalizeConserves(s: State, o: Report, now: int)
    requires WellFormed(s) && Conserved(s)
    ensures WellFormed(Finalize(s, o, now).0) && Conserved(Finalize(s, o, now).0)
  {
    var s' := Finalize(s, o, now).0;
    var id := AttemptId(o.tenant, o.attempt);
    if s' != s {
      var env := Load(s.attempts[id].env);
      LoadAligned(s.attempts[id].env);
      var t := Decide(env, RequestedState(o.state).value, o);
      MovedConserves(s, s', id, env, SettledTargets(env, t), false, s'.attempts[id]);
    }
  }

  lemma ReconcileConserves(s: State, tenant: string, authorized: bool, admission: string, expected: int,
                           body: Reconciliation, now: int)
    requires WellFormed(s) && Conserved(s)
    ensures var s' := Reconcile(s, tenant, authorized, admission, expected, body, now).0;
            WellFormed(s') && Conserved(s')
  {
    var s' := Reconcile(s, tenant, authorized, admission, expected, body, now).0;
    var id := AttemptId(tenant, admission);
    if s' != s {
      var env := Load(s.attempts[id].env);
      LoadAligned(s.attempts[id].env);
      var r := body.(usage := NormalizeUsage(body.usage).usage);
      MovedConserves(s, s', id, env, ReconciledTargets(env, DecideCharge(env, r), EvidenceTokens(r)), true,
          s'.attempts[id]);
    }
  }

  lemma {:induction false} SweepConserves(s: State, due: seq<AttemptId>, now: int)
    requires WellFormed(s) && Conserved(s) && SweepFrom(s, due, now).Ok?
    ensures WellFormed(SweepFrom(s, due, now).value) && Conserved(SweepFrom(s, due, now).value)
    decreases |due|
  {
    if due != [] {
      var s1 := SweepOne(s, due[0], now).value;
      if due[0] in s.attempts && Overdue(s.attempts[due[0]], now) {
        var env := s.attempts[due[0]].env;
        MovedConserves(s, s1, due[0], env, ReleaseTargets(env), true, s1.attempts[due[0]]);
      }
      SweepConserves(s1, due[1..], now);
    }
  }

  lemma PurgeOneConserves(s: State, id: AttemptId, now: int)
    requires WellFormed(s) && Conserved(s)
    ensures WellFormed(PurgeOne(s, id, now)) && Conserved(PurgeOne(s, id, now))
  {
    var s' := PurgeOne(s, id, now);
    if s' != s {
      forall k ensures Reserved(s'.allowances, k) == TotalHeld(s', k) {
        SumRemove(s.attempts, id, RowHold(k));
        SumSeqSnoc(s.archive, s.attempts[id].env, ArchivedHold(k));
      }
    }
  }

  lemma {:induction false} PurgeConserves(s: State, settled: seq<AttemptId>, now: int)
    requires WellFormed(s) && Conserved(s)
    ensures WellFormed(PurgeFrom(s, settled, now)) && Conserved(PurgeFrom(s, settled, now))
    decreases |settled|
  {
    if settled != [] {
      PurgeOneConserves(s, settled[0], now);
      PurgeConserves(PurgeOne(s, settled[0], now), settled[1..], now);
    }
  }

  lemma {:induction false} ExpireKeepsAccounting(s: State, ids: seq<EffectId>, now: int)
    ensures var s' := ExpireFrom(s, ids, now); s' == s.(ledger := s'.ledger, expired := s'.expired)
    decreases |ids|
  {
    if ids != [] {
      ExpireKeepsAccounting(ExpireOne(s, ids[0], now), ids[1..], now);
    }
  }

  lemma MaintainConserves(s: State, now: int, due: seq<AttemptId>, settled: seq<AttemptId>, effects: seq<EffectId>)
    requires WellFormed(s) && Conserved(s)
    ensures var s' := Maintain(s, now, due, settled, effects).0; WellFormed(s') && Conserved(s')
  {
    var swept := SweepFrom(s, due, now);
    if swept.Ok? {
      SweepConserves(s, due, now);
      PurgeConserves(swept.value, settled, now);
      var purged := PurgeFrom(swept.value, settled, now);
      ExpireKeepsAccounting(purged, effects, now);
      assert forall k :: TotalHeld(ExpireFrom(purged, effects, now), k) == TotalHeld(purged, k);
    }
  }

  lemma StepConserves(s: State, step: Step)
    requires WellFormed(s) && Conserved(s)
    ensures WellFormed(Apply(s, step)) && Conserved(Apply(s, step))
  {
    match step {
      case DoBegin(plan, clock, scan, approved) => BeginConserves(s, plan, clock, scan, approved);
      case DoAccept(permit, evidence, now) => AcceptConserves(s, permit, evidence, now);
      case DoFinalize(report, now) => FinalizeConserves(s, report, now);
      case DoReconcile(tenant, authorized, admission, expected, body, now) =>
        ReconcileConserves(s, tenant, authorized, admission, expected, body, now);
      case DoMaintain(now, due, settled, effects) => MaintainConserves(s, now, due, settled, effects);
      case DoConfigure(limits, windows, models, config, counters) =>
        var s' := Apply(s, step);
        assert forall k :: TotalHeld(s', k) == TotalHeld(s, k);
    }
  }

  /**
   Conservation: after any run of begins, acceptances, settlements,
   reconciliations, maintenance passes and configuration changes, every counter
   equals the holds on it over all attempts ever recorded.
   */
  lemma {:induction false} RunConserves(s: State, steps: seq<Step>)
    requires Initial(s)
    ensures WellFormed(Run(s, steps)) && Conserved(Run(s, steps))
    decreases |steps|
  {
    if steps == [] {
      forall k ensures Reserved(s.allowances, k) == TotalHeld(s, k) {}
    } else {
      RunConserves(s, steps[..|steps| - 1]);
      StepConserves(Run(s, steps[..|steps| - 1]), steps[|steps| - 1]);
    }
  }
}
