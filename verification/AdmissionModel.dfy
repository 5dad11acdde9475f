/**
 Admission accounting: the durable rows, and what each transaction makes of
 them. Every transaction is a function from the state to the new state and its
 answer; a refused transaction returns the state unchanged.
 */
module AdmissionModel {
  import opened Basics
  import opened Cost

  // ---------------------------------------------------------------------- rows

  datatype Kind = CostKind | TokenKind | RequestKind | ConcurrencyKind | JobKind | OtherKind(name: string)

  /** The primary key shared by the allowance counters and the policy limits. */
  datatype Key = Key(tenant: string, scopeKind: string, scopeId: string, window: string, kind: Kind)

  datatype Limit = Limit(maximum: Int64, reserve: Int64)
  datatype WindowKey = WindowKey(tenant: string, id: string)
  datatype Window = Window(starts: int, ends: int)
  datatype ModelKey = ModelKey(tenant: string, id: string)
  datatype Model = Model(contextLimit: Option<Int64>, outputLimit: Option<Int64>, price: Option<PriceSchedule>)

  datatype Allowance = Allowance(
    scopeKind: string, scopeId: string, window: string, kind: Kind, maximum: Int64, reserve: Int64)

  datatype Plan = Plan(
    tenant: string, request: string, attempt: string, apiKey: string, connection: string, account: string,
    model: string, priceVersion: string, keyRevision: Int64, configRevision: Int64,
    maximumCost: Option<Int64>, deadline: Option<int>, allowances: seq<Allowance>, operation: string,
    inputBound: Option<Int64>, outputBound: Option<Int64>)

  datatype AttemptState = DispatchIntent | Accepted | Settled | NotExecuted | OutcomeUnknown | JobPending

  /** The terminal state an outcome asks for; an empty one means settled. */
  datatype Requested = Unspecified | Named(state: AttemptState) | Unrecognized

  datatype Report = Report(
    tenant: string, request: string, attempt: string, state: Requested,
    usage: Option<Usage>, actualCost: Option<Int64>)

  datatype Envelope = Envelope(
    plan: Plan, submitted: Plan, outcome: Option<Report>, held: seq<int>,
    chargedCost: Int64, chargedCostKnown: bool, reconciled: bool, acceptedEvidence: string,
    updatedAt: int, concurrencyReleased: bool, price: Option<PriceSchedule>)

  datatype AttemptId = AttemptId(tenant: string, attempt: string)
  datatype Row = Row(state: AttemptState, version: int, env: Envelope)

  datatype EffectId = EffectId(tenant: string, effect: string)
  datatype Effect = Effect(id: EffectId, attempt: AttemptId, kind: string, amount: Option<int>, createdAt: int)

  datatype Mode = ProviderEvidence | ChargeReservedMaximum | OtherMode(name: string)
  datatype Reconciliation = Reconciliation(
    id: string, mode: Mode, reason: string, sourceReference: string, cost: Option<Int64>, usage: Option<Usage>)
  datatype ReconcileRequest = ReconcileRequest(admission: string, expected: int, body: Reconciliation)
  datatype ReconcileResult = ReconcileResult(
    body: Reconciliation, admission: string, admissionVersion: int, state: AttemptState,
    chargedCost: Option<int>, delta: Option<int>)
  datatype ReconciliationId = ReconciliationId(tenant: string, id: string)
  datatype Reconciled = Reconciled(request: ReconcileRequest, result: ReconcileResult)

  /**
   The tables, with two histories: the envelopes of attempts that retention
   removed and the ledger rows that retention removed.
   */
  datatype State = State(
    allowances: map<Key, int>,
    attempts: map<AttemptId, Row>,
    ledger: map<EffectId, Effect>,
    reconciliations: map<ReconciliationId, Reconciled>,
    limits: map<Key, Limit>,
    windows: map<WindowKey, Window>,
    models: map<ModelKey, Model>,
    config: int,
    archive: seq<Envelope>,
    expired: seq<Effect>)

  datatype Error =
    | IdentityRequired | DeadlineRequired | InvalidAllowance | DeadlineExceeded | NotApproved
    | ConfigurationStale | InvalidConfiguration | InvalidTarget | UnsupportedPolicy | QuotaExceeded
    | Conflict | AlreadySettled | NotFound | InvalidState | NotDispatchable | EvidenceRequired
    | InvalidHold | AllowanceChanged | AllowanceOverflow
    | InvalidReconciliation | InvalidVersion | VersionConflict | VersionExhausted | NotReconcilable
    | MaximumUnavailable | InvalidAccounting | LedgerConflict

  datatype Answer<+T> = Ok(value: T) | Fail(error: Error)

  /** Counters together with the holds of one attempt. */
  datatype Holds = Holds(rows: map<Key, int>, held: seq<int>)

  function KeyOf(tenant: string, a: Allowance): (k: Key) {
    Key(tenant, a.scopeKind, a.scopeId, a.window, a.kind)
  }

  // ------------------------------------------------------------------ planning

  function ValidatePlan(p: Plan): (r: Option<Error>) {
    if p.tenant == "" || p.request == "" || p.attempt == "" then Some(IdentityRequired)
    else if p.deadline.None? then Some(DeadlineRequired)
    else if exists a | a in p.allowances ::
      || a.scopeKind == "" || a.scopeId == "" || a.window == "" || a.kind == OtherKind("")
      || a.maximum < 0 || a.reserve < 0 || a.reserve > a.maximum
    then Some(InvalidAllowance)
    else None
  }

  /** The cost bound a plan must carry: the token bound, or the unit price where that is unknown. */
  function PlanMaximumCost(bound: CostResult, price: PriceSchedule, bounded: bool, operation: string)
    : (r: Answer<Option<Int64>>)
  {
    if bounded && bound.Cost? then Ok(Some(bound.amount))
    else if bounded && bound.error != UnknownCost then Fail(InvalidConfiguration)
    else if price.maximumUnitCost.Some? && price.unitOperation == operation then Ok(price.maximumUnitCost)
    else Ok(None)
  }

  ghost function PlanBound(p: Plan, price: PriceSchedule): CostResult {
    BoundCost(OrZero(p.inputBound), OrZero(p.outputBound), Some(price))
  }

  /** Re-checks the plan's token and cost bounds against the stored model. */
  function CheckModel(p: Plan, m: Model, bound: CostResult): (r: Option<Error>) {
    if p.inputBound.Some? && (m.contextLimit.None? || m.contextLimit.value < 0 || p.inputBound != m.contextLimit)
    then Some(ConfigurationStale)
    else if p.outputBound.Some? &&
            (m.outputLimit.None? || m.outputLimit.value < 0 || p.outputBound.value < 0
             || p.outputBound.value > m.outputLimit.value)
    then Some(ConfigurationStale)
    else if m.price.None? then
      if p.maximumCost.Some? || p.priceVersion != "" then Some(ConfigurationStale) else None
    else if m.price.value.version != p.priceVersion then Some(ConfigurationStale)
    else if p.maximumCost.None? then None
    else match PlanMaximumCost(bound, m.price.value, p.inputBound.Some? && p.outputBound.Some?, p.operation)
      case Fail(e) => Some(e)
      case Ok(want) => if want != p.maximumCost then Some(ConfigurationStale) else None
  }

  function ScopeMatches(k: Key, p: Plan): (r: bool) {
    || (k.scopeKind == "tenant" && k.scopeId == p.tenant)
    || (k.scopeKind == "key" && k.scopeId == p.apiKey)
    || (k.scopeKind == "connection" && k.scopeId == p.connection)
    || (k.scopeKind == "account" && k.scopeId == p.account)
    || (k.scopeKind == "model" && k.scopeId == p.model)
  }

  datatype CurrentWindow = CurrentWindow(id: string, window: Window)

  /**
   The calendar as one transaction sees it: the time, the window that replaces
   each expired window id, and the ids that are current by name alone.
   */
  datatype Clock = Clock(now: int, current: map<string, CurrentWindow>, named: set<string>)

  function WindowActive(windows: map<WindowKey, Window>, tenant: string, id: string, clock: Clock): (r: bool) {
    if id == "total" then true
    else if WindowKey(tenant, id) in windows then
      var w := windows[WindowKey(tenant, id)];
      w.starts <= clock.now < w.ends
    else id in clock.named
  }

  /** What an active policy row asks of the plan. */
  function Required(p: Plan, kind: Kind): (r: Answer<Int64>) {
    match kind
    case TokenKind =>
      if p.inputBound.None? || p.outputBound.None? then Fail(UnsupportedPolicy)
      else (match CheckedAdd(p.inputBound.value, p.outputBound.value)
            case None => Fail(UnsupportedPolicy)
            case Some(n) => Ok(n))
    case CostKind => if p.maximumCost.None? then Fail(UnsupportedPolicy) else Ok(p.maximumCost.value)
    case _ => Ok(1)
  }

  /** Rows created when an expired window rolls forward to the current one; existing rows stay. */
  function RollForward(s: State, k: Key, limit: Limit, current: CurrentWindow): (r: State) {
    var k' := k.(window := current.id);
    s.(windows := s.windows[WindowKey(k.tenant, current.id) := current.window],
       limits := if k' in s.limits then s.limits else s.limits[k' := limit],
       allowances := if k' in s.allowances then s.allowances else s.allowances[k' := 0])
  }

  datatype Resolved = Resolved(state: State, allowances: seq<Allowance>)

  /** One scanned policy row: skipped, rolled forward, or turned into an allowance entry. */
  function ResolveRow(s: State, p: Plan, clock: Clock, k: Key, limit: Limit): (r: Answer<Resolved>) {
    if !ScopeMatches(k, p) || limit.maximum <= 0 then Ok(Resolved(s, []))
    else
      var active := WindowActive(s.windows, p.tenant, k.window, clock);
      var rolls := !active && k.window in clock.current;
      if !active && !rolls then Ok(Resolved(s, []))
      else
        var s' := if rolls then RollForward(s, k, limit, clock.current[k.window]) else s;
        var window := if rolls then clock.current[k.window].id else k.window;
        match Required(p, k.kind)
        case Fail(e) => Fail(e)
        case Ok(required) =>
          Ok(Resolved(s', [Allowance(k.scopeKind, k.scopeId, window, k.kind, limit.maximum, required)]))
  }

  /** The scan over the tenant's policy rows, as the limits stood when it began. */
  function ResolveFrom(limits: map<Key, Limit>, p: Plan, clock: Clock, scan: seq<Key>, s: State, found: seq<Allowance>)
    : (r: Answer<Resolved>)
    decreases |scan|
  {
    if scan == [] then Ok(Resolved(s, found))
    else if scan[0] !in limits || scan[0].tenant != p.tenant then ResolveFrom(limits, p, clock, scan[1..], s, found)
    else match ResolveRow(s, p, clock, scan[0], limits[scan[0]])
      case Fail(e) => Fail(e)
      case Ok(one) => ResolveFrom(limits, p, clock, scan[1..], one.state, found + one.allowances)
  }

  // ----------------------------------------------------------------- admission

  function AmountOf(p: Plan, a: Allowance): (r: Answer<Int64>) {
    match a.kind
    case CostKind => if p.maximumCost.None? then Fail(UnsupportedPolicy) else Ok(p.maximumCost.value)
    case TokenKind => Required(p, TokenKind)
    case OtherKind(_) => Ok(a.reserve)
    case _ => Ok(1)
  }

  /** The amount one allowance entry reserves now; zero when the entry is skipped. */
  function ReserveOne(s: State, p: Plan, now: int, seen: bool, a: Allowance, rows: map<Key, int>): (r: Answer<Int64>) {
    var k := KeyOf(p.tenant, a);
    match AmountOf(p, a)
    case Fail(e) => Fail(e)
    case Ok(amount) =>
      if amount == 0 || (seen && a.kind == RequestKind) then Ok(0)
      else if k !in s.limits then Fail(ConfigurationStale)
      else if a.maximum <= 0 || s.limits[k].maximum <= 0 || a.maximum > s.limits[k].maximum
              || amount > s.limits[k].maximum then Fail(QuotaExceeded)
      else if a.window != "total" &&
              (WindowKey(p.tenant, a.window) !in s.windows
               || now < s.windows[WindowKey(p.tenant, a.window)].starts
               || now >= s.windows[WindowKey(p.tenant, a.window)].ends) then Fail(QuotaExceeded)
      else if k !in rows || rows[k] + amount > a.maximum then Fail(QuotaExceeded)
      else Ok(amount)
  }

  function AddHold(rows: map<Key, int>, k: Key, amount: int): (r: map<Key, int>) {
    if amount == 0 || k !in rows then rows else rows[k := rows[k] + amount]
  }

  function ReserveFrom(s: State, p: Plan, now: int, seen: bool, h: Holds): (r: Answer<Holds>)
    requires |h.held| <= |p.allowances|
    decreases |p.allowances| - |h.held|
  {
    if |h.held| == |p.allowances| then Ok(h)
    else
      var a := p.allowances[|h.held|];
      match ReserveOne(s, p, now, seen, a, h.rows)
      case Fail(e) => Fail(e)
      case Ok(amount) =>
        ReserveFrom(s, p, now, seen, Holds(AddHold(h.rows, KeyOf(p.tenant, a), amount), h.held + [amount]))
  }

  function SameAttempt(a: Plan, b: Plan): (r: bool) {
    && a.tenant == b.tenant && a.request == b.request && a.attempt == b.attempt && a.apiKey == b.apiKey
    && a.connection == b.connection && a.account == b.account && a.model == b.model
    && a.keyRevision == b.keyRevision && a.configRevision == b.configRevision && a.deadline == b.deadline
  }

  predicate SeenRequest(attempts: map<AttemptId, Row>, tenant: string, request: string) {
    exists id | id in attempts :: id.tenant == tenant && attempts[id].env.plan.request == request
  }

  datatype Permit = Permit(tenant: string, request: string, attempt: string, configRevision: int)

  function NewRow(p: Plan, submitted: Plan, held: seq<int>, now: int, price: Option<PriceSchedule>, config: int)
    : (r: Row)
  {
    Row(DispatchIntent, config,
        Envelope(p, submitted, None, held, 0, false, false, "", now, false, price))
  }

  /** The price pinned with the admission. */
  function PinnedPrice(s: State, p: Plan): (r: Option<PriceSchedule>) {
    if p.model != "" && ModelKey(p.tenant, p.model) in s.models then s.models[ModelKey(p.tenant, p.model)].price
        else None
  }

  /** The checks of a plan against the stored configuration, before allowances are resolved. */
  ghost function CheckPlan(s: State, p: Plan, now: int, approved: bool): Option<Error> {
    if ValidatePlan(p).Some? then ValidatePlan(p)
    else if p.deadline.value <= now then Some(DeadlineExceeded)
    else if !approved then Some(NotApproved)
    else if s.config < 0 || p.configRevision < 0 || s.config != p.configRevision then Some(ConfigurationStale)
    else if p.model == "" then None
    else if ModelKey(p.tenant, p.model) !in s.models then Some(InvalidTarget)
    else
      var m := s.models[ModelKey(p.tenant, p.model)];
      CheckModel(p, m, if m.price.Some? then PlanBound(p, m.price.value) else Err(UnknownCost))
  }

  /** The authoritative allowances of a plan, and the rows that resolving them created. */
  ghost function Derive(s: State, submitted: Plan, clock: Clock, scan: seq<Key>, approved: bool): Answer<Resolved> {
    var checked := CheckPlan(s, submitted, clock.now, approved);
    if checked.Some? then Fail(checked.value) else ResolveFrom(s.limits, submitted, clock, scan, s, [])
  }

  /** Reserves every allowance of a new attempt and records it. */
  ghost function Admit(s: State, p: Plan, submitted: Plan, now: int): Answer<State> {
    match ReserveFrom(s, p, now, SeenRequest(s.attempts, p.tenant, p.request), Holds(s.allowances, []))
    case Fail(e) => Fail(e)
    case Ok(h) =>
      Ok(s.(allowances := h.rows,
            attempts := s.attempts[AttemptId(p.tenant, p.attempt) :=
                                     NewRow(p, submitted, h.held, now, PinnedPrice(s, p), s.config)]))
  }

  /**
   BeginAttempt: derives the authoritative allowances, reserves every one of
   them and records the attempt, or changes nothing.
   */
  ghost function Begin(s: State, submitted: Plan, clock: Clock, scan: seq<Key>, approved: bool): (State, Answer<Permit>)
  {
    match Derive(s, submitted, clock, scan, approved)
    case Fail(e) => (s, Fail(e))
    case Ok(resolved) =>
      var s1 := resolved.state;
      var p := submitted.(allowances := resolved.allowances);
      var id := AttemptId(p.tenant, p.attempt);
      if id in s1.attempts then
        var row := s1.attempts[id];
        if !SameAttempt(row.env.submitted, submitted) then (s, Fail(Conflict))
        else if row.state == DispatchIntent || row.state == Accepted then
          (s1, Ok(Permit(p.tenant, p.request, p.attempt, row.env.plan.configRevision)))
        else (s, Fail(AlreadySettled))
      else match Admit(s1, p, submitted, clock.now)
        case Fail(e) => (s, Fail(e))
        case Ok(s2) => (s2, Ok(Permit(p.tenant, p.request, p.attempt, s1.config)))
  }

  // ---------------------------------------------------------------- settlement

  /** The envelope as settlement reads it: a recorded cost counts as known, missing holds are the reserves. */
  function Load(env: Envelope): (r: Envelope) {
    var known := env.chargedCostKnown || env.chargedCost != 0
        || (env.outcome.Some? && env.outcome.value.actualCost.Some?);
    var n := |env.held|;
    var missing := |env.plan.allowances| - n;
    var held := if missing > 0
                then env.held + seq(missing, i requires 0 <= i < missing => env.plan.allowances[n + i].reserve)
                else env.held;
    env.(chargedCostKnown := known, held := held)
  }

  datatype Evidence = Evidence(usage: Option<Usage>, valid: bool, totalKnown: bool)

  function NormalizeUsage(input: Option<Usage>): (r: Evidence) {
    match input
    case None => Evidence(None, true, false)
    case Some(u) =>
      if NegativeCounter(u) || Negative(u.total) then Evidence(None, false, false)
      else if u.input.None? || u.output.None? then Evidence(Some(u), true, u.total.Some?)
      else match CheckedAdd(u.input.value, u.output.value)
        case None => Evidence(Some(u), true, false)
        case Some(n) =>
          if u.total.None? then Evidence(Some(u.(total := Some(n))), true, true)
          else Evidence(Some(u), true, u.total.value == n)
  }

  /** Moves one hold to a target, changing the shared counter by the difference only. */
  function MoveHold(rows: map<Key, int>, k: Key, maximum: int, current: int, target: int, overrun: bool)
    : (r: Answer<map<Key, int>>)
  {
    if target < 0 then Fail(InvalidHold)
    else if target == current then Ok(rows)
    else if target < current then
      if k in rows && rows[k] >= current - target then Ok(rows[k := rows[k] - (current - target)])
      else Fail(AllowanceChanged)
    else if overrun then
      if k in rows && rows[k] <= MAX_INT64 - (target - current) then Ok(rows[k := rows[k] + (target - current)])
      else Fail(AllowanceOverflow)
    else if maximum < target - current then Fail(QuotaExceeded)
    else if k in rows && rows[k] <= maximum - (target - current) then Ok(rows[k := rows[k] + (target - current)])
    else Fail(QuotaExceeded)
  }

  /**
   Moves the holds one entry at a time. Settlement adjusts every entry; the others
   pass over the entries they leave alone.
   */
  function MoveHoldsFrom(tenant: string, entries: seq<Allowance>, h: Holds, targets: seq<int>, skip: bool, i: nat)
    : (r: Answer<Holds>)
    requires |h.held| == |targets| == |entries| && i <= |targets|
    decreases |targets| - i
  {
    if i == |targets| then Ok(h)
    else if skip && targets[i] == h.held[i] then MoveHoldsFrom(tenant, entries, h, targets, skip, i + 1)
    else match MoveHold(h.rows, KeyOf(tenant, entries[i]), entries[i].maximum, h.held[i], targets[i],
        targets[i] > h.held[i])
      case Fail(e) => Fail(e)
      case Ok(rows) => MoveHoldsFrom(tenant, entries, Holds(rows, h.held[i := targets[i]]), targets, skip, i + 1)
  }

  function MoveHolds(env: Envelope, rows: map<Key, int>, targets: seq<int>, skip: bool): (r: Answer<Holds>)
    requires |env.held| == |targets| == |env.plan.allowances|
  {
    MoveHoldsFrom(env.plan.tenant, env.plan.allowances, Holds(rows, env.held), targets, skip, 0)
  }

  function RequestedState(r: Requested): (n: Option<AttemptState>) {
    match r
    case Unspecified => Some(Settled)
    case Named(s) => if s == DispatchIntent || s == Accepted then None else Some(s)
    case Unrecognized => None
  }

  datatype Transition = Proceed | Replay | Refuse

  function TransitionTo(state: AttemptState, next: AttemptState): (t: Transition) {
    match state
    case Settled | NotExecuted | OutcomeUnknown => if state == next then Replay else Refuse
    case JobPending => if next == JobPending then Replay else if next == NotExecuted then Refuse else Proceed
    case DispatchIntent | Accepted => Proceed
  }

  datatype Settlement = Settlement(next: AttemptState, evidence: Evidence, actualCost: Option<Int64>, costKnown: bool)

  predicate HasKind(entries: seq<Allowance>, kind: Kind) {
    exists a | a in entries :: a.kind == kind
  }

  /** The evidence a report carries and the state it can support. */
  function Settle(next: AttemptState, o: Report, estimate: CostResult, needsCost: bool, needsTokens: bool)
    : (r: Settlement)
  {
    var evidence := NormalizeUsage(o.usage);
    var negative := Negative(o.actualCost);
    var next1 := if negative && next == Settled then OutcomeUnknown else next;
    var given := if negative then None else o.actualCost;
    var actual := if next1 == Settled && given.None? && evidence.valid && estimate.Cost? then Some(estimate.amount)
        else given;
    var costKnown := next1 != NotExecuted && actual.Some?;
    var next2 := if next1 == Settled && ((needsCost && !costKnown) || (needsTokens && !evidence.totalKnown))
                 then OutcomeUnknown else next1;
    Settlement(next2, evidence, actual, costKnown)
  }

  function SettledTarget(kind: Kind, held: int, t: Settlement): (r: int) {
    if t.next == NotExecuted then 0
    else if kind == ConcurrencyKind && (t.next == Settled || t.next == JobPending) then 0
    else if kind == JobKind && t.next == Settled then 0
    else if kind == TokenKind && (t.next == Settled || t.next == OutcomeUnknown) && t.evidence.valid
            && t.evidence.totalKnown && t.evidence.usage.Some? && t.evidence.usage.value.total.Some?
         then t.evidence.usage.value.total.value
    else if kind == CostKind && (t.next == Settled || t.next == OutcomeUnknown) && t.costKnown && t.actualCost.Some?
         then t.actualCost.value
    else held
  }

  function SettledTargets(env: Envelope, t: Settlement): (r: seq<int>)
    requires |env.held| == |env.plan.allowances|
    ensures |r| == |env.held|
  {
    seq(|env.held|, i requires 0 <= i < |env.held| => SettledTarget(env.plan.allowances[i].kind, env.held[i], t))
  }

  predicate Charges(env: Envelope, t: Settlement) {
    (t.next == Settled || t.next == OutcomeUnknown) && t.costKnown && t.actualCost.Some? && !env.chargedCostKnown
  }

  const CHARGE := "charge"
  const CHARGE_SUFFIX := ":charge"
  const RECONCILIATION_PREFIX := "reconciliation:"

  function ChargeEffect(id: AttemptId, amount: int, now: int): (e: Effect) {
    Effect(EffectId(id.tenant, id.attempt + CHARGE_SUFFIX), id, CHARGE, Some(amount), now)
  }

  /** Insert unless the effect id is already taken. */
  function RecordOnce(ledger: map<EffectId, Effect>, e: Effect): (r: map<EffectId, Effect>) {
    if e.id in ledger then ledger else ledger[e.id := e]
  }

  ghost function EstimateFor(o: Report, price: Option<PriceSchedule>): CostResult {
    UsageCost(NormalizeUsage(o.usage).usage, price)
  }

  /** What a report settles an attempt to. */
  ghost function Decide(env: Envelope, next: AttemptState, o: Report): Settlement {
    Settle(next, o, EstimateFor(o, env.price), HasKind(env.plan.allowances, CostKind),
        HasKind(env.plan.allowances, TokenKind))
  }

  /** FinalizeAttempt: settles the holds, records the charge once and stores the outcome. */
  ghost function Finalize(s: State, o: Report, now: int): (State, Option<Error>) {
    var id := AttemptId(o.tenant, o.attempt);
    if o.tenant == "" || o.attempt == "" then (s, Some(IdentityRequired))
    else if id !in s.attempts then (s, Some(NotFound))
    else
      var row := s.attempts[id];
      var env := Load(row.env);
      var requested := RequestedState(o.state);
      if env.plan.tenant != o.tenant || env.plan.attempt != o.attempt || env.plan.request == "" then (s, Some(Conflict))
      else if o.request != "" && o.request != env.plan.request then (s, Some(Conflict))
      else if requested.None? then (s, Some(InvalidState))
      else match TransitionTo(row.state, requested.value)
        case Replay => (s, None)
        case Refuse => (s, Some(AlreadySettled))
        case Proceed =>
          if |env.held| != |env.plan.allowances| then (s, Some(InvalidHold))
          else
            var t := Decide(env, requested.value, o);
            match MoveHolds(env, s.allowances, SettledTargets(env, t), false)
            case Fail(e) => (s, Some(e))
            case Ok(h) => (RecordSettlement(s, id, row, env, t, o, h, now), None)
  }

  /** The state after a settlement whose holds have been moved. */
  function RecordSettlement(s: State, id: AttemptId, row: Row, env: Envelope, t: Settlement, o: Report, h: Holds,
                            now: int): (r: State)
  {
    var charges := Charges(env, t);
    var report := o.(state := Named(t.next), usage := t.evidence.usage, actualCost := t.actualCost);
    var env' := env.(
      held := h.held,
      outcome := Some(report),
      updatedAt := now,
      chargedCost := if charges then t.actualCost.value else env.chargedCost,
      chargedCostKnown := env.chargedCostKnown || charges);
    s.(allowances := h.rows,
       ledger := if charges then RecordOnce(s.ledger, ChargeEffect(id, t.actualCost.value, now)) else s.ledger,
       attempts := s.attempts[id := Row(t.next, row.version + 1, env')])
  }

  /** MarkAccepted: records provider acknowledgement evidence; holds do not move. */
  function Accept(s: State, permit: Permit, evidence: string, now: int): (r: (State, Option<Error>)) {
    var id := AttemptId(permit.tenant, permit.attempt);
    if permit.tenant == "" || permit.attempt == "" || evidence == "" then (s, Some(EvidenceRequired))
    else if id !in s.attempts then (s, Some(NotFound))
    else
      var row := s.attempts[id];
      var env := Load(row.env);
      if env.plan.tenant != permit.tenant || env.plan.attempt != permit.attempt || env.plan.request == ""
          then (s, Some(Conflict))
      else if row.state == Accepted then
        (s, if env.acceptedEvidence == evidence then None else Some(Conflict))
      else if row.state != DispatchIntent then (s, Some(NotDispatchable))
      else if permit.request != "" && permit.request != env.plan.request then (s, Some(Conflict))
      else
        (s.(attempts := s.attempts[id :=
            Row(Accepted, row.version + 1, env.(acceptedEvidence := evidence, updatedAt := now))]),
         None)
  }

  // ------------------------------------------------------------ reconciliation

  predicate BlankChar(c: char) {
    var n := c as int;
    || 9 <= n <= 13 || 0x2000 <= n <= 0x200A
    || n in {0x20, 0x85, 0xA0, 0x1680, 0x2028, 0x2029, 0x202F, 0x205F, 0x3000}
  }
  predicate Blank(text: string) { forall c | c in text :: BlankChar(c) }

  /** The largest configured cost maximum among the entries. */
  ghost function LargestCostMaximum(entries: seq<Allowance>): (r: Option<Int64>) {
    if entries == [] then None
    else
      var rest := LargestCostMaximum(entries[..|entries| - 1]);
      var a := entries[|entries| - 1];
      if a.kind == CostKind && (rest.None? || a.maximum > rest.value) then Some(a.maximum) else rest
  }

  datatype Charge = Known(amount: Int64) | Unknown | Unavailable

  /** Which charge a reconciliation establishes. */
  function ChooseCharge(env: Envelope, r: Reconciliation, estimate: CostResult, largest: Option<Int64>): (c: Charge) {
    var prior := if env.chargedCostKnown || env.chargedCost != 0 then Known(env.chargedCost) else Unknown;
    var chosen :=
      if r.mode == ProviderEvidence then
        if r.cost.Some? then Known(r.cost.value)
        else if r.usage.None? then prior
        else if estimate.Cost? then Known(estimate.amount)
        else if estimate.error != UnknownCost then Unknown
        else prior
      else if env.plan.maximumCost.Some? then Known(env.plan.maximumCost.value)
      else if largest.Some? then Known(largest.value)
      else Unavailable;
    if chosen.Known? && chosen.amount < 0 then Unavailable else chosen
  }

  ghost function DecideCharge(env: Envelope, r: Reconciliation): Charge {
    ChooseCharge(env, r, UsageCost(r.usage, env.price), LargestCostMaximum(env.plan.allowances))
  }

  function EvidenceTokens(r: Reconciliation): (t: Option<Int64>) {
    if r.mode == ProviderEvidence && r.usage.Some? then r.usage.value.total else None
  }

  function ReconciledTarget(kind: Kind, held: int, charge: Charge, tokens: Option<Int64>): (t: int) {
    if kind == CostKind && charge.Known? then charge.amount
    else if kind == TokenKind && tokens.Some? then tokens.value
    else if kind == ConcurrencyKind then 0
    else held
  }

  function ReconciledTargets(env: Envelope, charge: Charge, tokens: Option<Int64>): (r: seq<int>)
    requires |env.held| == |env.plan.allowances|
    ensures |r| == |env.held|
  {
    seq(|env.held|, i requires 0 <= i < |env.held| =>
      ReconciledTarget(env.plan.allowances[i].kind, env.held[i], charge, tokens))
  }

  function CheckReconciliation(expected: int, r: Reconciliation): (e: Option<Error>) {
    if expected <= 0 then Some(InvalidVersion)
    else if Blank(r.reason) || r.mode.OtherMode? then Some(InvalidReconciliation)
    else if Negative(r.cost) then Some(InvalidReconciliation)
    else if r.mode == ProviderEvidence && (Blank(r.sourceReference) || (r.usage.None? && r.cost.None?))
    then Some(EvidenceRequired)
    else
      var n := NormalizeUsage(r.usage);
      if r.usage.Some? && (!n.valid || n.usage.None? ||
           (n.usage.value.input.Some? && n.usage.value.output.Some? && !n.totalKnown)) then Some(InvalidReconciliation)
      else None
  }

  function ReconcileEffect(id: AttemptId, r: Reconciliation, delta: Option<int>, now: int): (e: Effect) {
    Effect(EffectId(id.tenant, RECONCILIATION_PREFIX + r.id), id, RECONCILIATION_PREFIX + r.id, delta, now)
  }

  /** The state after a reconciliation whose holds have been moved. */
  function RecordReconciliation(s: State, id: AttemptId, row: Row, env: Envelope, request: ReconcileRequest,
                                r: Reconciliation, charge: Charge, h: Holds, now: int): (out: (State, ReconcileResult))
  {
    var known := charge.Known?;
    var delta := if known then Some(charge.amount - env.chargedCost) else None;
    var result := ReconcileResult(r, id.attempt, row.version + 1, row.state,
                                  if known then Some(charge.amount) else None, delta);
    var prior := if env.outcome.Some? then env.outcome.value
                 else Report(id.tenant, env.plan.request, id.attempt, Named(row.state), None, None);
    var evidence := r.mode == ProviderEvidence;
    var report := prior.(actualCost := if known then Some(charge.amount) else prior.actualCost,
                         usage := if evidence && r.usage.Some? then r.usage else prior.usage);
    var env' := env.(
      held := h.held, reconciled := true,
      chargedCost := if known then charge.amount else env.chargedCost,
      chargedCostKnown := env.chargedCostKnown || known,
      updatedAt := now,
      acceptedEvidence := if evidence then r.sourceReference else env.acceptedEvidence,
      outcome := Some(report));
    var effect := ReconcileEffect(id, r, delta, now);
    (s.(allowances := h.rows,
        ledger := s.ledger[effect.id := effect],
        attempts := s.attempts[id := Row(row.state, row.version + 1, env')],
        reconciliations := s.reconciliations[ReconciliationId(id.tenant, r.id) := Reconciled(request, result)]),
     result)
  }

  /** Reconcile: corrects the holds and the charge of an unresolved attempt, once per reconciliation id. */
  ghost function Reconcile(s: State, tenant: string, authorized: bool, admission: string, expected: int,
                           body: Reconciliation, now: int): (State, Answer<ReconcileResult>)
  {
    var request := ReconcileRequest(admission, expected, body);
    var rid := ReconciliationId(tenant, body.id);
    var id := AttemptId(tenant, admission);
    if Blank(body.id) || Blank(admission) then (s, Fail(InvalidReconciliation))
    else if !authorized then (s, Fail(NotApproved))
    else if rid in s.reconciliations then
      var prior := s.reconciliations[rid];
      (s, if prior.request == request then Ok(prior.result) else Fail(Conflict))
    else if CheckReconciliation(expected, body).Some? then (s, Fail(CheckReconciliation(expected, body).value))
    else if id !in s.attempts then (s, Fail(NotFound))
    else
      var r := body.(usage := NormalizeUsage(body.usage).usage);
      var row := s.attempts[id];
      var env := Load(row.env);
      if env.plan.tenant != tenant || env.plan.attempt != admission || env.plan.request == "" then (s, Fail(Conflict))
      else if row.version != expected then (s, Fail(VersionConflict))
      else if row.version == MAX_INT64 then (s, Fail(VersionExhausted))
      else if row.state != OutcomeUnknown then (s, Fail(NotReconcilable))
      else if |env.held| != |env.plan.allowances| then (s, Fail(InvalidHold))
      else
        var charge := DecideCharge(env, r);
        var tokens := EvidenceTokens(r);
        if charge.Unavailable? then (s, Fail(MaximumUnavailable))
        else match MoveHolds(env, s.allowances, ReconciledTargets(env, charge, tokens), true)
          case Fail(e) => (s, Fail(e))
          case Ok(h) =>
            if env.chargedCost < 0 then (s, Fail(InvalidAccounting))
            else if ReconcileEffect(id, r, None, now).id in s.ledger then (s, Fail(LedgerConflict))
            else
              var (s', result) := RecordReconciliation(s, id, row, env, request, r, charge, h, now);
              (s', Ok(result))
  }

  // --------------------------------------------------------------- maintenance

  const CANCELLATION_GRACE := 30
  const ATTEMPT_RETENTION := 30 * 24 * 3600
  const USAGE_RETENTION := 365 * 24 * 3600

  /** Past its deadline and still holding its place. */
  predicate Overdue(row: Row, now: int) {
    && row.env.plan.deadline.Some? && 0 < row.env.plan.deadline.value <= now - CANCELLATION_GRACE
    && (row.state == DispatchIntent || row.state == Accepted
        || (row.state == OutcomeUnknown && !row.env.concurrencyReleased))
  }

  function ReleaseTargets(env: Envelope): (r: seq<int>)
    requires |env.held| == |env.plan.allowances|
    ensures |r| == |env.held|
  {
    seq(|env.held|, i requires 0 <= i < |env.held| =>
      if env.plan.allowances[i].kind == ConcurrencyKind && env.held[i] > 0 then 0 else env.held[i])
  }

  /** Releases the concurrency of one overdue attempt and marks its outcome unknown. */
  function SweepOne(s: State, id: AttemptId, now: int): (r: Answer<State>) {
    if id !in s.attempts || !Overdue(s.attempts[id], now) then Ok(s)
    else
      var row := s.attempts[id];
      if |row.env.held| != |row.env.plan.allowances| then Fail(InvalidHold)
      else match MoveHolds(row.env, s.allowances, ReleaseTargets(row.env), true)
        case Fail(e) => Fail(e)
        case Ok(h) =>
          var env' := row.env.(held := h.held, concurrencyReleased := true, updatedAt := now);
          Ok(s.(allowances := h.rows, attempts := s.attempts[id := Row(OutcomeUnknown, row.version + 1, env')]))
  }

  function SweepFrom(s: State, due: seq<AttemptId>, now: int): (r: Answer<State>)
    decreases |due|
  {
    if due == [] then Ok(s)
    else match SweepOne(s, due[0], now)
      case Fail(e) => Fail(e)
      case Ok(s') => SweepFrom(s', due[1..], now)
  }

  predicate Purgeable(row: Row, now: int) {
    row.state == Settled && 0 < row.env.updatedAt < now - ATTEMPT_RETENTION
  }

  /** Deletes one settled attempt past retention; its envelope moves to the history. */
  function PurgeOne(s: State, id: AttemptId, now: int): (r: State) {
    if id in s.attempts && Purgeable(s.attempts[id], now)
    then s.(attempts := s.attempts - {id}, archive := s.archive + [s.attempts[id].env])
    else s
  }

  function PurgeFrom(s: State, settled: seq<AttemptId>, now: int): (r: State)
    decreases |settled|
  {
    if settled == [] then s else PurgeFrom(PurgeOne(s, settled[0], now), settled[1..], now)
  }

  predicate EffectExpired(e: Effect, now: int) {
    e.createdAt < now - USAGE_RETENTION && !(RECONCILIATION_PREFIX <= e.kind)
  }

  /** Deletes one expired ledger row; it moves to the history. */
  function ExpireOne(s: State, id: EffectId, now: int): (r: State) {
    if id in s.ledger && EffectExpired(s.ledger[id], now)
    then s.(ledger := s.ledger - {id}, expired := s.expired + [s.ledger[id]])
    else s
  }

  function ExpireFrom(s: State, ids: seq<EffectId>, now: int): (r: State)
    decreases |ids|
  {
    if ids == [] then s else ExpireFrom(ExpireOne(s, ids[0], now), ids[1..], now)
  }

  /**
   RunMaintenance over the rows its queries return: attempts past their
   deadline, settled attempts in update order, and ledger rows in any order.
   */
  function Maintain(s: State, now: int, due: seq<AttemptId>, settled: seq<AttemptId>, effects: seq<EffectId>)
    : (r: (State, Option<Error>))
  {
    match SweepFrom(s, due, now)
    case Fail(e) => (s, Some(e))
    case Ok(s') => (ExpireFrom(PurgeFrom(s', settled, now), effects, now), None)
  }

  // ---------------------------------------------------------------------- runs

  /** A configuration change: any limits, windows, models and revision; counters are only ever added, at zero. */
  function Configure(s: State, limits: map<Key, Limit>, windows: map<WindowKey, Window>, models: map<ModelKey, Model>,
                     config: int, counters: set<Key>): (r: State)
  {
    s.(limits := limits, windows := windows, models := models, config := config,
       allowances := (map k | k in counters :: 0) + s.allowances)
  }

  datatype Step =
    | DoBegin(plan: Plan, clock: Clock, scan: seq<Key>, approved: bool)
    | DoAccept(permit: Permit, evidence: string, now: int)
    | DoFinalize(report: Report, now: int)
    | DoReconcile(tenant: string, authorized: bool, admission: string, expected: int, body: Reconciliation, now: int)
    | DoMaintain(now: int, due: seq<AttemptId>, settled: seq<AttemptId>, effects: seq<EffectId>)
    | DoConfigure(limits: map<Key, Limit>, windows: map<WindowKey, Window>, models: map<ModelKey, Model>, config: int,
        counters: set<Key>)

  ghost function Apply(s: State, step: Step): State {
    match step
    case DoBegin(plan, clock, scan, approved) => Begin(s, plan, clock, scan, approved).0
    case DoAccept(permit, evidence, now) => Accept(s, permit, evidence, now).0
    case DoFinalize(report, now) => Finalize(s, report, now).0
    case DoReconcile(tenant, authorized, admission, expected, body, now) =>
      Reconcile(s, tenant, authorized, admission, expected, body, now).0
    case DoMaintain(now, due, settled, effects) => Maintain(s, now, due, settled, effects).0
    case DoConfigure(limits, windows, models, config, counters) =>
        Configure(s, limits, windows, models, config, counters)
  }

  ghost function Run(s: State, steps: seq<Step>): State {
    if steps == [] then s else Apply(Run(s, steps[..|steps| - 1]), steps[|steps| - 1])
  }

  /** A freshly migrated store: no attempts, no ledger, every counter at zero. */
  ghost predicate Initial(s: State) {
    && s.attempts == map[] && s.ledger == map[] && s.reconciliations == map[]
    && s.archive == [] && s.expired == []
    && forall k | k in s.allowances :: s.allowances[k] == 0
  }
}
