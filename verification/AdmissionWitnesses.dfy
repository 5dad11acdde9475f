/**
 Concrete runs: inputs for which a stronger reading of the accounting fails.
 For each, a theorem here or beside the property states exactly when it fails.
 */
module AdmissionWitnesses {
  import opened Basics
  import opened Cost
  import opened AdmissionModel
  import opened AdmissionInvariant
  import opened AdmissionSafety
  import opened AdmissionLedger
  import opened AdmissionWindows

  function CounterOf(kind: Kind): (k: Key) { Key("t", "tenant", "t", "total", kind) }

  /** A fresh store with one limit of ten on one counter. */
  function OneLimit(kind: Kind): (s: State) {
    State(map[CounterOf(kind) := 0], map[], map[], map[], map[CounterOf(kind) := Limit(10, 1)], map[], map[], 0, [], [])
  }

  function PlanFor(attempt: string, cost: Option<Int64>, input: Option<Int64>, output: Option<Int64>): (p: Plan) {
    Plan("t", "request", attempt, "", "c", "", "", "", 0, 0, cost, Some(100), [], "op", input, output)
  }

  const NOON := Clock(1, map[], {})

  function OnlyTotal(n: Int64): (u: Usage) { Usage(None, None, Some(n), None, None, None, None, None, None) }

  lemma DerivedOne(s: State, kind: Kind, p: Plan, amount: Int64)
    requires s.limits == OneLimit(kind).limits && s.config == 0
    requires p == PlanFor(p.attempt, p.maximumCost, p.inputBound, p.outputBound) && p.attempt != ""
             && Required(p, kind) == Ok(amount)
    ensures Derive(s, p, NOON, [CounterOf(kind)], true)
            == Ok(Resolved(s, [Allowance("tenant", "t", "total", kind, 10, amount)]))
  {
    hide Required;
    var k := CounterOf(kind);
    var a := Allowance("tenant", "t", "total", kind, 10, amount);
    assert ResolveRow(s, p, NOON, k, s.limits[k]) == Ok(Resolved(s, [a]));
    assert [k][1..] == [] && [] + [a] == [a];
    assert ResolveFrom(s.limits, p, NOON, [], s, [a]) == Ok(Resolved(s, [a]));
    assert ResolveFrom(s.limits, p, NOON, [k], s, []) == Ok(Resolved(s, [a]));
    assert CheckPlan(s, p, 1, true) == None;
  }

  lemma ReservedOne(s: State, kind: Kind, p: Plan, amount: Int64, plan: Plan)
    requires kind != RequestKind && s.limits == OneLimit(kind).limits && s.config == 0
    requires CounterOf(kind) in s.allowances && s.allowances[CounterOf(kind)] + amount <= 10 && amount <= 10
    requires p == PlanFor(p.attempt, p.maximumCost, p.inputBound, p.outputBound)
    requires amount != 0 && Required(p, kind) == Ok(amount)
             && plan == p.(allowances := [Allowance("tenant", "t", "total", kind, 10, amount)])
    ensures Admit(s, plan, p, 1)
         == Ok(s.(allowances := s.allowances[CounterOf(kind) := s.allowances[CounterOf(kind)] + amount],
                  attempts := s.attempts[AttemptId("t", p.attempt) := NewRow(plan, p, [amount], 1, None, 0)]))
  {
    hide SeenRequest;
    var k := CounterOf(kind);
    var a := plan.allowances[0];
    var seen := SeenRequest(s.attempts, "t", "request");
    assert KeyOf("t", a) == k;
    assert ReserveOne(s, plan, 1, seen, a, s.allowances) == Ok(amount);
    var h := Holds(AddHold(s.allowances, k, amount), [] + [amount]);
    assert ReserveFrom(s, plan, 1, seen, h) == Ok(h);
    assert ReserveFrom(s, plan, 1, seen, Holds(s.allowances, [])) == Ok(h);
    assert h.held == [amount];
  }

  /** Admitting one of these plans records one entry on the one counter. */
  lemma Admitted(s: State, kind: Kind, p: Plan, amount: Int64)
    requires kind != RequestKind && s.limits == OneLimit(kind).limits && s.config == 0
    requires CounterOf(kind) in s.allowances && s.allowances[CounterOf(kind)] + amount <= 10 && amount <= 10
    requires p == PlanFor(p.attempt, p.maximumCost, p.inputBound, p.outputBound) && p.attempt != ""
    requires AttemptId("t", p.attempt) !in s.attempts
    requires amount != 0 && Required(p, kind) == Ok(amount)
    ensures var a := Allowance("tenant", "t", "total", kind, 10, amount);
            var rows := s.allowances[CounterOf(kind) := s.allowances[CounterOf(kind)] + amount];
            Begin(s, p, NOON, [CounterOf(kind)], true).0
            == s.(allowances := rows,
                  attempts := s.attempts[AttemptId("t", p.attempt) :=
                      NewRow(p.(allowances := [a]), p, [amount], 1, None, 0)])
  {
    hide Derive, Admit, Required;
    DerivedOne(s, kind, p, amount);
    ReservedOne(s, kind, p, amount, p.(allowances := [Allowance("tenant", "t", "total", kind, 10, amount)]));
  }

  /** A report that names only a total is within every input and output bound, and still overruns the limit. */
  lemma TotalOnlyOverruns()
    ensures var s := OneLimit(TokenKind);
            var begin := DoBegin(PlanFor("a", None, Some(6), Some(4)), NOON, [CounterOf(TokenKind)], true);
            var settle := DoFinalize(Report("t", "", "a", Unspecified, Some(OnlyTotal(100)), None), 2);
            Initial(s) && Reserved(Run(s, [begin, settle]).allowances, CounterOf(TokenKind)) == 100
  {
    hide Begin, Finalize, Run;
    var s := OneLimit(TokenKind);
    var p := PlanFor("a", None, Some(6), Some(4));
    var o := Report("t", "", "a", Unspecified, Some(OnlyTotal(100)), None);
    RunTwo(s, DoBegin(p, NOON, [CounterOf(TokenKind)], true), DoFinalize(o, 2));
    Admitted(s, TokenKind, p, 10);
    var s1 := Begin(s, p, NOON, [CounterOf(TokenKind)], true).0;
    var env := s1.attempts[AttemptId("t", "a")].env;
    TotalDecides(Load(env), o);
    SettledOne(s1, "a", TokenKind, 10, o, 2, 100);
  }

  lemma TotalDecides(env: Envelope, o: Report)
    requires o.usage == Some(OnlyTotal(100)) && o.actualCost.None? && |env.plan.allowances| == 1
             && env.plan.allowances[0].kind == TokenKind
    ensures SettledTarget(TokenKind, 10, Decide(env, Settled, o)) == 100
  {
  }

  lemma RunTwo(s: State, a: Step, b: Step)
    ensures Run(s, [a, b]) == Apply(Apply(s, a), b)
  {
    assert [a, b][..1] == [a] && [a][..0] == [];
    assert Run(s, [a]) == Apply(Run(s, []), a);
  }

  /**
   Every negative cost bound is admitted as a negative hold, and then the release of
   another attempt's hold is refused.
   */
  lemma NegativeBoundBlocksRelease(b: Int64)
    requires b < 0
    ensures var s := OneLimit(CostKind);
            var first := DoBegin(PlanFor("a", Some(b), None, None), NOON, [CounterOf(CostKind)], true);
            var second := DoBegin(PlanFor("b", Some(5), None, None), NOON, [CounterOf(CostKind)], true);
            Initial(s)
            && Finalize(Run(s, [first, second]), Report("t", "", "b", Named(NotExecuted), None, None), 2).1
                == Some(AllowanceChanged)
  {
    hide Begin, Finalize, Run;
    var s := OneLimit(CostKind);
    var p, q := PlanFor("a", Some(b), None, None), PlanFor("b", Some(5), None, None);
    RunTwo(s, DoBegin(p, NOON, [CounterOf(CostKind)], true), DoBegin(q, NOON, [CounterOf(CostKind)], true));
    Admitted(s, CostKind, p, b);
    var s1 := Begin(s, p, NOON, [CounterOf(CostKind)], true).0;
    Admitted(s1, CostKind, q, 5);
    var s2 := Begin(s1, q, NOON, [CounterOf(CostKind)], true).0;
    SettledOne(s2, "b", CostKind, 5, Report("t", "", "b", Named(NotExecuted), None, None), 2, 0);
  }

  /** No settlement, reconciliation or maintenance pass is refused because a counter cannot give back a hold. */
  ghost predicate ReleasesNeverRefused(s: State) {
    && (forall o, now :: Finalize(s, o, now).1 != Some(AllowanceChanged))
    && (forall tenant, authorized, admission, expected, body, now ::
          Reconcile(s, tenant, authorized, admission, expected, body, now).1 != Fail(AllowanceChanged))
    && (forall now, due, settled, effects :: Maintain(s, now, due, settled, effects).1 != Some(AllowanceChanged))
  }

  /** Every cost bound that the run submits is at least `b`. */
  ghost predicate BoundsAtLeast(steps: seq<Step>, b: Int64) {
    forall i | 0 <= i < |steps| && steps[i].DoBegin? && steps[i].plan.maximumCost.Some? ::
      steps[i].plan.maximumCost.value >= b
  }

  lemma SoundNeverRefuses(s: State)
    requires Sound(s)
    ensures ReleasesNeverRefused(s)
  {
    hide Finalize, Reconcile, Maintain, Sound;
    forall o, now ensures Finalize(s, o, now).1 != Some(AllowanceChanged) {
      SettlementNeverBlocked(s, o, now);
    }
    forall tenant, authorized, admission, expected, body, now
      ensures Reconcile(s, tenant, authorized, admission, expected, body, now).1 != Fail(AllowanceChanged) {
      ReconciliationNeverBlocked(s, tenant, authorized, admission, expected, body, now);
    }
    forall now, due, settled, effects ensures Maintain(s, now, due, settled, effects).1 != Some(AllowanceChanged) {
      MaintenanceNeverBlocked(s, now, due, settled, effects);
    }
  }

  /**
   Releases never fail exactly when cost bounds are kept non-negative: the runs
   that submit no cost bound below `b` have no release refused iff `b >= 0`.
   */
  lemma ReleasesSafeExactly(b: Int64)
    ensures (forall s, steps | Initial(s) && BoundsAtLeast(steps, b) :: ReleasesNeverRefused(Run(s, steps))) <==> b >= 0
  {
    hide Finalize, Reconcile, Maintain, Sound, Begin, Run;
    if b >= 0 {
      forall s, steps | Initial(s) && BoundsAtLeast(steps, b) ensures ReleasesNeverRefused(Run(s, steps)) {
        RunIsSound(s, steps);
        SoundNeverRefuses(Run(s, steps));
      }
    } else {
      NegativeBoundBlocksRelease(b);
      var first := DoBegin(PlanFor("a", Some(b), None, None), NOON, [CounterOf(CostKind)], true);
      var second := DoBegin(PlanFor("b", Some(5), None, None), NOON, [CounterOf(CostKind)], true);
      assert BoundsAtLeast([first, second], b);
      assert !ReleasesNeverRefused(Run(OneLimit(CostKind), [first, second]));
    }
  }

  // --------------------------------------------------------------- lost charges

  const EMPTY := State(map[], map[], map[], map[], map[], map[], map[], 0, [], [])
  const JOB := AttemptId("t", "a")
  const LONG_PLAN := PlanFor("a", None, None, None).(deadline := Some(10_000_000))

  function BeginAt(now: int): (step: Step) { DoBegin(LONG_PLAN, Clock(now, map[], {}), [], true) }
  function CostReport(state: Requested, cost: Int64): (o: Report) { Report("t", "", "a", state, None, Some(cost)) }

  lemma AdmittedBare(s: State, now: int)
    requires JOB !in s.attempts && s.config == 0 && now < 10_000_000
    ensures Apply(s, BeginAt(now)) == s.(attempts := s.attempts[JOB := NewRow(LONG_PLAN, LONG_PLAN, [], now, None, 0)])
  {
    hide SeenRequest;
    assert CheckPlan(s, LONG_PLAN, now, true) == None;
    assert LONG_PLAN.(allowances := []) == LONG_PLAN;
  }

  /** Settling an attempt without allowances records exactly its decision. */
  lemma SettledBare(s: State, o: Report, now: int)
    requires JOB in s.attempts && s.attempts[JOB].env.plan == LONG_PLAN && s.attempts[JOB].env.held == []
    requires o.tenant == "t" && o.attempt == "a" && o.request == "" && RequestedState(o.state).Some?
    requires TransitionTo(s.attempts[JOB].state, RequestedState(o.state).value) == Proceed
    ensures var env := Load(s.attempts[JOB].env);
            Apply(s, DoFinalize(o, now))
            == RecordSettlement(s, JOB, s.attempts[JOB], env, Decide(env, RequestedState(o.state).value, o), o,
                                Holds(s.allowances, []), now)
  {
    hide Decide, RecordSettlement;
    var env := Load(s.attempts[JOB].env);
    var t := Decide(env, RequestedState(o.state).value, o);
    assert SettledTargets(env, t) == [];
  }

  lemma RunSnoc(s: State, steps: seq<Step>, step: Step)
    ensures Run(s, steps + [step]) == Apply(Run(s, steps), step)
  {
    hide Apply;
    assert (steps + [step])[..|steps|] == steps;
  }

  /** A report of a cost settles an attempt without allowances at that cost. */
  lemma BareDecision(env: Envelope, state: Requested, cost: Int64)
    requires env.plan == LONG_PLAN && cost >= 0 && (state == Unspecified || state == Named(JobPending))
    ensures var t := Decide(env, RequestedState(state).value, CostReport(state, cost));
            t.next == RequestedState(state).value && t.costKnown && t.actualCost == Some(cost)
  {
  }

  /** The state after a first life of the attempt: begun, settled at five and purged; its ledger row remains. */
  ghost function FirstLife(): seq<Step> {
    [BeginAt(1), DoFinalize(CostReport(Unspecified, 5), 2), DoMaintain(3_000_000, [], [JOB], [])]
  }

  lemma FirstLifeLeavesRow()
    ensures var s := Run(EMPTY, FirstLife());
            && JOB !in s.attempts && s.config == 0 && LedgerTotal(s, JOB) == 5
            && EffectId("t", "a" + CHARGE_SUFFIX) in s.ledger
  {
    hide Apply, Run, LedgerTotal, Decide;
    var settle := DoFinalize(CostReport(Unspecified, 5), 2);
    assert FirstLife() == [BeginAt(1), settle] + [DoMaintain(3_000_000, [], [JOB], [])];
    RunSnoc(EMPTY, [BeginAt(1), settle], DoMaintain(3_000_000, [], [JOB], []));
    RunTwo(EMPTY, BeginAt(1), settle);
    AdmittedBare(EMPTY, 1);
    var s1 := Apply(EMPTY, BeginAt(1));
    SettledBare(s1, CostReport(Unspecified, 5), 2);
    BareDecision(Load(s1.attempts[JOB].env), Unspecified, 5);
    var s2 := Apply(s1, settle);
    NothingRecorded(s1, JOB);
    RecordedTotal(s1, s2, ChargeEffect(JOB, 5, 2), JOB);
    PurgedBare(s2);
    SameLedger(s2, Apply(s2, DoMaintain(3_000_000, [], [JOB], [])), JOB);
  }

  lemma PurgedBare(s: State)
    requires JOB in s.attempts && s.attempts[JOB].state == Settled && s.attempts[JOB].env.updatedAt == 2
    ensures Apply(s, DoMaintain(3_000_000, [], [JOB], []))
         == s.(attempts := s.attempts - {JOB}, archive := s.archive + [s.attempts[JOB].env])
  {
    var purged := PurgeOne(s, JOB, 3_000_000);
    assert [JOB][1..] == [];
    assert PurgeFrom(purged, [], 3_000_000) == purged;
    assert PurgeFrom(s, [JOB], 3_000_000) == purged;
    assert ExpireFrom(purged, [], 3_000_000) == purged && SweepFrom(s, [], 3_000_000) == Ok(s);
  }

  /**
   An attempt id reused after its row was purged, while its ledger row is still
   there: the second charge is seven and the ledger stays at five.
   */
  lemma ReusedIdLosesCharge()
    ensures var steps := FirstLife() + [BeginAt(3_000_000)] + [DoFinalize(CostReport(Unspecified, 7), 3_000_001)];
            var s := Run(EMPTY, steps);
            && Initial(EMPTY) && JOB in s.attempts && s.attempts[JOB].env.chargedCost == 7 && LedgerTotal(s, JOB) == 5
  {
    hide Apply, Run, LedgerTotal, Decide;
    var settle := DoFinalize(CostReport(Unspecified, 7), 3_000_001);
    FirstLifeLeavesRow();
    var s3 := Run(EMPTY, FirstLife());
    RunSnoc(EMPTY, FirstLife(), BeginAt(3_000_000));
    RunSnoc(EMPTY, FirstLife() + [BeginAt(3_000_000)], settle);
    AdmittedBare(s3, 3_000_000);
    var s4 := Apply(s3, BeginAt(3_000_000));
    SettledBare(s4, CostReport(Unspecified, 7), 3_000_001);
    BareDecision(Load(s4.attempts[JOB].env), Unspecified, 7);
    SameLedger(s3, Apply(s4, settle), JOB);
  }

  /** A job-pending report that carries a cost: the settlement at seven charges nothing. */
  lemma PendingCostLosesCharge()
    ensures var steps := [BeginAt(1), DoFinalize(CostReport(Named(JobPending), 3), 2)]
            + [DoFinalize(CostReport(Unspecified, 7), 3)];
            var s := Run(EMPTY, steps);
            && Initial(EMPTY) && JOB in s.attempts && s.attempts[JOB].state == Settled
            && s.attempts[JOB].env.chargedCost == 0 && LedgerTotal(s, JOB) == 0
  {
    hide Apply, Run, LedgerTotal, Decide;
    var pending, settle := DoFinalize(CostReport(Named(JobPending), 3), 2), DoFinalize(CostReport(Unspecified, 7), 3);
    RunSnoc(EMPTY, [BeginAt(1), pending], settle);
    RunTwo(EMPTY, BeginAt(1), pending);
    AdmittedBare(EMPTY, 1);
    var s1 := Apply(EMPTY, BeginAt(1));
    SettledBare(s1, CostReport(Named(JobPending), 3), 2);
    BareDecision(Load(s1.attempts[JOB].env), Named(JobPending), 3);
    var s2 := Apply(s1, pending);
    SettledBare(s2, CostReport(Unspecified, 7), 3);
    BareDecision(Load(s2.attempts[JOB].env), Unspecified, 7);
    NothingRecorded(s1, JOB);
    SameLedger(s1, Apply(s2, settle), JOB);
  }

  // -------------------------------------------------------------- stale windows

  const STALE := Key("t", "tenant", "t", "60:0", RequestKind)
  const CURRENT := Key("t", "tenant", "t", "60:60", RequestKind)

  const MINUTE := CurrentWindow("60:60", Window(60, 120))
  const ROLLED := Clock(70, map["60:0" := MINUTE, "60:60" := MINUTE], {})

  function TwoWindows(): (s: State) {
    State(map[STALE := 0, CURRENT := 0], map[], map[], map[], map[STALE := Limit(10, 1), CURRENT := Limit(10, 1)],
          map[WindowKey("t", "60:0") := Window(0, 60), WindowKey("t", "60:60") := Window(60, 120)], map[], 0, [], [])
  }

  /**
   Counting by entry is not counting by counter: once an expired window has
   rolled forward, one request reserves the current counter once per policy row.
   */
  lemma StaleWindowCountsTwice()
    ensures Initial(TwoWindows()) && Calendar(ROLLED) && Distinct([STALE, CURRENT])
    ensures var p := PlanFor("a", None, None, None);
            && Collide(TwoWindows().limits, TwoWindows().windows, p, ROLLED, STALE, CURRENT)
            && Reserved(Begin(TwoWindows(), p, ROLLED, [STALE, CURRENT], true).0.allowances, CURRENT) == 2
  {
    var p := PlanFor("a", None, None, None);
    var a := Allowance("tenant", "t", "60:60", RequestKind, 10, 1);
    TwiceDerived(TwoWindows(), p, a);
    hide Derive, Admit;
    TwiceReserved(TwoWindows(), p.(allowances := [a, a]), a);
  }

  lemma TwiceDerived(s: State, p: Plan, a: Allowance)
    requires s == TwoWindows()
    requires p == PlanFor("a", None, None, None) && a == Allowance("tenant", "t", "60:60", RequestKind, 10, 1)
    ensures Derive(s, p, ROLLED, [STALE, CURRENT], true) == Ok(Resolved(s, [a, a]))
  {
    var s1 := RollForward(s, STALE, Limit(10, 1), ROLLED.current["60:0"]);
    assert s1 == s;
    assert ResolveRow(s, p, ROLLED, STALE, Limit(10, 1)) == Ok(Resolved(s, [a]));
    assert ResolveRow(s, p, ROLLED, CURRENT, Limit(10, 1)) == Ok(Resolved(s, [a]));
    assert [STALE, CURRENT][1..] == [CURRENT] && [CURRENT][1..] == [] && [] + [a] == [a] && [a] + [a] == [a, a];
    assert ResolveFrom(s.limits, p, ROLLED, [], s, [a, a]) == Ok(Resolved(s, [a, a]));
    assert ResolveFrom(s.limits, p, ROLLED, [CURRENT], s, [a]) == Ok(Resolved(s, [a, a]));
    assert ResolveFrom(s.limits, p, ROLLED, [STALE, CURRENT], s, []) == Ok(Resolved(s, [a, a]));
    assert Derive(s, p, ROLLED, [STALE, CURRENT], true) == Ok(Resolved(s, [a, a]));
  }

  lemma TwiceReserved(s: State, p: Plan, a: Allowance)
    requires p.allowances == [a, a] && a == Allowance("tenant", "t", "60:60", RequestKind, 10, 1) && p.tenant == "t"
    requires s.attempts == map[] && CURRENT in s.allowances && s.allowances[CURRENT] == 0
    requires CURRENT in s.limits && s.limits[CURRENT] == Limit(10, 1)
    requires WindowKey("t", "60:60") in s.windows && s.windows[WindowKey("t", "60:60")] == Window(60, 120)
    ensures Admit(s, p, p.(allowances := []), 70).Ok?
    ensures Reserved(Admit(s, p, p.(allowances := []), 70).value.allowances, CURRENT) == 2
  {
    assert KeyOf("t", a) == CURRENT;
    var h1 := Holds(s.allowances[CURRENT := 1], [1]);
    var h2 := Holds(s.allowances[CURRENT := 2], [1, 1]);
    assert [] + [1] == [1] && [1] + [1] == [1, 1] && h1.rows[CURRENT := 2] == h2.rows;
    assert ReserveFrom(s, p, 70, false, h2) == Ok(h2);
    assert ReserveFrom(s, p, 70, false, h1) == Ok(h2);
    assert ReserveFrom(s, p, 70, false, Holds(s.allowances, [])) == Ok(h2);
  }

  /** Settling an attempt with a single entry moves its one counter by the difference. */
  lemma SettledOne(s: State, attempt: string, kind: Kind, held: int, o: Report, now: int, target: int)
    requires var id := AttemptId("t", attempt);
             && id in s.attempts && attempt != "" && s.attempts[id].state == DispatchIntent
             && CounterOf(kind) in s.allowances
             && var env := s.attempts[id].env;
                && env.plan.tenant == "t" && env.plan.attempt == attempt && env.plan.request == "request"
                && env.held == [held] && |env.plan.allowances| == 1
                    && KeyOf("t", env.plan.allowances[0]) == CounterOf(kind)
                && o.tenant == "t" && o.attempt == attempt && o.request == "" && RequestedState(o.state).Some?
                && SettledTarget(kind, held, Decide(Load(env), RequestedState(o.state).value, o)) == target
    requires held >= 0 && target >= 0 && s.allowances[CounterOf(kind)] <= MAX_INT64 - target
    ensures var counter := s.allowances[CounterOf(kind)];
            Finalize(s, o, now)
            == (if target < held && counter < held - target then (s, Some(AllowanceChanged))
                else (Finalize(s, o, now).0, None))
    ensures var counter := s.allowances[CounterOf(kind)];
            !(target < held && counter < held - target) ==>
              Reserved(Finalize(s, o, now).0.allowances, CounterOf(kind)) == counter - held + target
  {
    hide Decide;
    var id := AttemptId("t", attempt);
    var env := s.attempts[id].env;
    LoadAligned(env);
    var t := Decide(Load(env), RequestedState(o.state).value, o);
    assert SettledTargets(Load(env), t) == [target];
    var moved := MoveHold(s.allowances, CounterOf(kind), env.plan.allowances[0].maximum, held, target, target > held);
    if moved.Ok? {
      var h := Holds(moved.value, [target]);
      assert [held][0 := target] == [target];
      assert MoveHoldsFrom("t", env.plan.allowances, h, [target], false, 1) == Ok(h);
    }
    assert MoveHoldsFrom("t", env.plan.allowances, Holds(s.allowances, [held]), [target], false, 0)
        == (if moved.Ok? then Ok(Holds(moved.value, [target])) else Fail(moved.error));
  }
}
