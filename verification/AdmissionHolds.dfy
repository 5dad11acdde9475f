/**
 Request and concurrency holds over whole runs: a request is counted by one stored
 attempt at most, and a concurrency hold is only ever released.
 */
module AdmissionHolds {
  import opened AdmissionModel
  import opened AdmissionInvariant
  import opened AdmissionSafety

  ghost predicate CarriesRequest(env: Envelope) {
    exists i :: 0 <= i < |env.held| && i < |env.plan.allowances| && env.plan.allowances[i].kind == RequestKind
        && env.held[i] != 0
  }

  ghost predicate SameRequest(a: Envelope, b: Envelope) {
    a.plan.tenant == b.plan.tenant && a.plan.request == b.plan.request
  }

  /** Among the stored attempts of one request, at most one carries request holds. */
  ghost predicate RequestsOnce(s: State) {
    forall a, b | a in s.attempts && b in s.attempts && a != b && SameRequest(s.attempts[a].env, s.attempts[b].env) ::
      !(CarriesRequest(s.attempts[a].env) && CarriesRequest(s.attempts[b].env))
  }

  /** A concurrency hold is one or nothing. */
  ghost predicate ConcurrencyBinary(s: State) {
    forall id | id in s.attempts ::
      forall i | 0 <= i < |s.attempts[id].env.held| && i < |s.attempts[id].env.plan.allowances|
                 && s.attempts[id].env.plan.allowances[i].kind == ConcurrencyKind ::
        s.attempts[id].env.held[i] in {0, 1}
  }

  lemma RowStepDrops(before: Row, after: Row)
    requires RowStep(before, after)
    ensures CarriesRequest(after.env) ==> CarriesRequest(before.env)
  {
    if CarriesRequest(after.env) {
      var i :| 0 <= i < |after.env.held| && after.env.plan.allowances[i].kind == RequestKind && after.env.held[i] != 0;
      assert EntryStep(RequestKind, before.env.held[i], after.env.held[i]);
    }
  }

  /** Evolving rows in a table that gains none keeps both properties. */
  lemma EvolutionKeeps(s: State, s': State)
    requires RowsStep(s, s') && s'.attempts.Keys <= s.attempts.Keys
    requires RequestsOnce(s) && ConcurrencyBinary(s)
    ensures RequestsOnce(s') && ConcurrencyBinary(s')
  {
    forall a, b | a in s'.attempts && b in s'.attempts && a != b && SameRequest(s'.attempts[a].env, s'.attempts[b].env)
      ensures !(CarriesRequest(s'.attempts[a].env) && CarriesRequest(s'.attempts[b].env)) {
      RowStepDrops(s.attempts[a], s'.attempts[a]);
      RowStepDrops(s.attempts[b], s'.attempts[b]);
      assert SameRequest(s.attempts[a].env, s.attempts[b].env);
    }
    forall id | id in s'.attempts
      ensures forall i | 0 <= i < |s'.attempts[id].env.held| && i < |s'.attempts[id].env.plan.allowances|
                         && s'.attempts[id].env.plan.allowances[i].kind == ConcurrencyKind ::
                             s'.attempts[id].env.held[i] in {0, 1} {
      assert RowStep(s.attempts[id], s'.attempts[id]);
    }
  }

  lemma BeginKeeps(s: State, p: Plan, clock: Clock, scan: seq<Key>, approved: bool)
    requires WellFormed(s) && Conserved(s) && RequestsOnce(s) && ConcurrencyBinary(s)
    ensures var s' := Begin(s, p, clock, scan, approved).0; RequestsOnce(s') && ConcurrencyBinary(s')
  {
    hide Begin, Conserved, Derive, Admit;
    BeginRows(s, p, clock, scan, approved);
    var s' := Begin(s, p, clock, scan, approved).0;
    if s'.attempts != s.attempts {
      AdmittedEntries(s, p, clock, scan, approved);
      var id := AttemptId(p.tenant, p.attempt);
      var env := s'.attempts[id].env;
      forall other | other in s.attempts && SameRequest(s.attempts[other].env, env) ensures !CarriesRequest(env) {
        assert SeenRequest(s.attempts, p.tenant, p.request);
      }
    }
  }

  lemma StepKeeps(s: State, step: Step)
    requires WellFormed(s) && Conserved(s) && RequestsOnce(s) && ConcurrencyBinary(s)
    ensures RequestsOnce(Apply(s, step)) && ConcurrencyBinary(Apply(s, step))
  {
    hide Begin, Accept, Finalize, Reconcile, Maintain, Conserved, RequestsOnce, ConcurrencyBinary, WellFormed;
    if step.DoBegin? {
      BeginKeeps(s, step.plan, step.clock, step.scan, step.approved);
    } else {
      StepRows(s, step);
      if step.DoMaintain? {
        MaintainRows(s, step.now, step.due, step.settled, step.effects);
      }
      EvolutionKeeps(s, Apply(s, step));
    }
  }

  /** In every reachable state a request is carried by at most one stored attempt, and concurrency holds are 0 or 1. */
  lemma {:induction false} RunKeepsRequestsOnce(s: State, steps: seq<Step>)
    requires Initial(s)
    ensures RequestsOnce(Run(s, steps)) && ConcurrencyBinary(Run(s, steps))
    decreases |steps|
  {
    if steps != [] {
      RunKeepsRequestsOnce(s, steps[..|steps| - 1]);
      RunConserves(s, steps[..|steps| - 1]);
      StepKeeps(Run(s, steps[..|steps| - 1]), steps[|steps| - 1]);
    }
  }

  lemma AcceptHeld(s: State, permit: Permit, evidence: string, now: int)
    requires WellFormed(s)
    ensures var s' := Accept(s, permit, evidence, now).0;
            forall id | id in s.attempts :: id in s'.attempts && s'.attempts[id].env.held == s.attempts[id].env.held
  {
    hide Accept, Load;
    if Accept(s, permit, evidence, now).0 != s {
      AcceptRow(s, permit, evidence, now);
      LoadAligned(s.attempts[AttemptId(permit.tenant, permit.attempt)].env);
    }
  }

  /** What a step made of a concurrency hold: admitted as 1, kept, or dropped from 1 to 0 where it may be. */
  ghost predicate ConcurrencyMove(s: State, s': State, id: AttemptId, i: nat, begins: bool, releases: bool) {
    id in s'.attempts && i < |s'.attempts[id].env.held| && i < |s'.attempts[id].env.plan.allowances|
    && s'.attempts[id].env.plan.allowances[i].kind == ConcurrencyKind ==>
      var after := s'.attempts[id].env.held[i];
      if id !in s.attempts then begins && after == 1
      else
        && i < |s.attempts[id].env.held|
        && var before := s.attempts[id].env.held[i];
           after == before || (releases && before == 1 && after == 0)
  }

  lemma ConcurrencyAtBegin(s: State, p: Plan, clock: Clock, scan: seq<Key>, approved: bool, id: AttemptId, i: nat)
    requires WellFormed(s) && Conserved(s)
    ensures ConcurrencyMove(s, Begin(s, p, clock, scan, approved).0, id, i, true, false)
  {
    hide Begin, Conserved;
    BeginRows(s, p, clock, scan, approved);
    if Begin(s, p, clock, scan, approved).0.attempts != s.attempts { AdmittedEntries(s, p, clock, scan, approved); }
  }

  lemma ConcurrencyInRows(s: State, s': State, id: AttemptId, i: nat)
    requires ConcurrencyBinary(s) && RowsStep(s, s') && s'.attempts.Keys <= s.attempts.Keys
    ensures ConcurrencyMove(s, s', id, i, false, true)
  {
    if id in s'.attempts {
      assert RowStep(s.attempts[id], s'.attempts[id]);
    }
  }

  /**
   A concurrency hold is admitted as 1 and only ever drops from 1 to 0, and only
   a settlement, a reconciliation or a maintenance sweep drops it.
   */
  lemma ConcurrencyOnlyReleased(s: State, step: Step, id: AttemptId, i: nat)
    requires WellFormed(s) && Conserved(s) && ConcurrencyBinary(s)
    ensures ConcurrencyMove(s, Apply(s, step), id, i, step.DoBegin?,
                            step.DoFinalize? || step.DoReconcile? || step.DoMaintain?)
  {
    hide Begin, Accept, Finalize, Reconcile, Maintain, Conserved, WellFormed, ConcurrencyBinary;
    match step {
      case DoBegin(p, clock, scan, approved) => ConcurrencyAtBegin(s, p, clock, scan, approved, id, i);
      case DoAccept(permit, evidence, now) =>
        AcceptHeld(s, permit, evidence, now);
        StepRows(s, step);
      case DoConfigure(_, _, _, _, _) =>
      case DoMaintain(now, due, settled, effects) =>
        MaintainRows(s, now, due, settled, effects);
        ConcurrencyInRows(s, Apply(s, step), id, i);
      case _ =>
        StepRows(s, step);
        ConcurrencyInRows(s, Apply(s, step), id, i);
    }
  }
}
